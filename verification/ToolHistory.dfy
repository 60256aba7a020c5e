/** Checks that tool calls and results pair up, in the frame and on the wire, and what they accept. */
module ToolHistory {
  import opened Wrappers
  import opened Json
  import opened Model
  import opened Blocks

  /** `blank` is text that trims to nothing; `idText` is the text form of a block id. */
  datatype Names = Names(blank: string -> bool, idText: BlockId -> string)

  // -- frames ------------------------------------------------------------------------------

  function WireId(n: Names, b: Block): string {
    if b.meta.providerCallId.Some? then b.meta.providerCallId.value else n.idText(b.id)
  }

  predicate IsDeclaration(past: seq<Block>, id: BlockId) {
    exists i :: 0 <= i < |past| && past[i].content.Declaration? && past[i].id == id
  }

  predicate HasWireId(n: Names, past: seq<Block>, wireId: string) {
    exists i :: 0 <= i < |past| && past[i].content.Declaration? && WireId(n, past[i]) == wireId
  }

  predicate IsCompleted(past: seq<Block>, id: BlockId) {
    exists i :: 0 <= i < |past| && past[i].content.Outcome? && past[i].content.result.callBlockId == id
  }

  /** No call is waiting for its result. */
  predicate NothingOpen(past: seq<Block>) {
    forall i :: 0 <= i < |past| && past[i].content.Declaration? ==> IsCompleted(past, past[i].id)
  }

  predicate SoundAdditions(added: seq<ToolDefinition>) {
    && (forall i :: 0 <= i < |added| ==> added[i].name != "")
    && (forall i, j :: 0 <= i < j < |added| ==> added[i].name != added[j].name)
  }

  predicate NoSealed(parts: seq<ContentPart>) {
    forall i :: 0 <= i < |parts| ==> !parts[i].Sealed?
  }

  /** The block may follow the blocks `past`. */
  predicate MayFollow(n: Names, past: seq<Block>, b: Block) {
    match b.content
    case Declaration(input) =>
      && !n.blank(input.toolName) && input.arguments.Obj?
      && WireId(n, b) != "" && !HasWireId(n, past, WireId(n, b)) && !IsDeclaration(past, b.id)
    case Outcome(result) => IsDeclaration(past, result.callBlockId) && !IsCompleted(past, result.callBlockId)
    case ToolsChanged(change) => NothingOpen(past) && SoundAdditions(change.added)
    case Message(role, parts) => role.Assistant? || NoSealed(parts)
  }

  predicate InOrder(n: Names, blocks: seq<Block>) {
    forall k :: 0 <= k < |blocks| ==> MayFollow(n, blocks[..k], blocks[k])
  }

  /** A frame a renderer can send: every exchange complete, in order, and unambiguous. */
  predicate Sendable(n: Names, blocks: seq<Block>) {
    InOrder(n, blocks) && NothingOpen(blocks)
  }

  /** Kept sets of the walk. */
  ghost predicate Tracks(n: Names, past: seq<Block>, declarations: set<BlockId>, wireIds: set<string>,
                         completed: set<BlockId>) {
    && (forall id :: id in declarations <==> IsDeclaration(past, id))
    && (forall w :: w in wireIds <==> HasWireId(n, past, w))
    && (forall id :: id in completed <==> IsCompleted(past, id))
  }

  lemma TracksMore(n: Names, past: seq<Block>, b: Block, declarations: set<BlockId>, wireIds: set<string>,
                   completed: set<BlockId>)
    requires Tracks(n, past, declarations, wireIds, completed)
    ensures Tracks(n, past + [b],
                   declarations + (if b.content.Declaration? then {b.id} else {}),
                   wireIds + (if b.content.Declaration? then {WireId(n, b)} else {}),
                   completed + (if b.content.Outcome? then {b.content.result.callBlockId} else {}))
  {
    forall id { DeclarationAppended(past, b, id); }
    forall w { WireIdAppended(n, past, b, w); }
    forall id { CompletedAppended(past, b, id); }
  }

  lemma DeclarationAppended(past: seq<Block>, b: Block, id: BlockId)
    ensures IsDeclaration(past + [b], id) <==> IsDeclaration(past, id) || (b.content.Declaration? && b.id == id)
  {
    var all := past + [b];
    if IsDeclaration(past, id) {
      var i :| 0 <= i < |past| && past[i].content.Declaration? && past[i].id == id;
      assert all[i] == past[i];
    }
    assert all[|past|] == b;
  }

  lemma WireIdAppended(n: Names, past: seq<Block>, b: Block, w: string)
    ensures HasWireId(n, past + [b], w) <==> HasWireId(n, past, w) || (b.content.Declaration? && WireId(n, b) == w)
  {
    var all := past + [b];
    if HasWireId(n, past, w) {
      var i :| 0 <= i < |past| && past[i].content.Declaration? && WireId(n, past[i]) == w;
      assert all[i] == past[i];
    }
    assert all[|past|] == b;
  }

  lemma CompletedAppended(past: seq<Block>, b: Block, id: BlockId)
    ensures IsCompleted(past + [b], id) <==>
            IsCompleted(past, id) || (b.content.Outcome? && b.content.result.callBlockId == id)
  {
    var all := past + [b];
    if IsCompleted(past, id) {
      var i :| 0 <= i < |past| && past[i].content.Outcome? && past[i].content.result.callBlockId == id;
      assert all[i] == past[i];
    }
    assert all[|past|] == b;
  }

  /** The walk over a frame: accepts exactly the sendable frames. */
  method ValidateFrame(n: Names, blocks: seq<Block>) returns (ok: bool)
    ensures ok == Sendable(n, blocks)
  {
    var declarations: set<BlockId>, wireIds: set<string>, completed: set<BlockId> := {}, {}, {};
    var k := 0;
    while k < |blocks|
      invariant 0 <= k <= |blocks|
      invariant Tracks(n, blocks[..k], declarations, wireIds, completed)
      invariant forall j :: 0 <= j < k ==> MayFollow(n, blocks[..j], blocks[j])
    {
      var b := blocks[k];
      AdmissibleExactly(n, blocks[..k], b, declarations, wireIds, completed);
      if !Admissible(n, b, declarations, wireIds, completed) {
        return false;
      }
      TracksMore(n, blocks[..k], b, declarations, wireIds, completed);
      assert blocks[..k + 1] == blocks[..k] + [b];
      match b.content {
        case Declaration(_) =>
          wireIds := wireIds + {WireId(n, b)};
          declarations := declarations + {b.id};
        case Outcome(result) =>
          completed := completed + {result.callBlockId};
        case _ =>
      }
      k := k + 1;
    }
    assert blocks[..k] == blocks;
    OpenExactly(n, blocks, declarations, wireIds, completed);
    ok := declarations <= completed;
  }

  /** The checks of the walk, on its sets. */
  predicate Admissible(n: Names, b: Block, declarations: set<BlockId>, wireIds: set<string>, completed: set<BlockId>) {
    match b.content
    case Declaration(input) =>
      && !n.blank(input.toolName) && input.arguments.Obj?
      && WireId(n, b) != "" && WireId(n, b) !in wireIds && b.id !in declarations
    case Outcome(result) => result.callBlockId in declarations && result.callBlockId !in completed
    case ToolsChanged(change) => declarations <= completed && SoundAdditions(change.added)
    case Message(role, parts) => role.Assistant? || NoSealed(parts)
  }

  lemma AdmissibleExactly(n: Names, past: seq<Block>, b: Block, declarations: set<BlockId>, wireIds: set<string>,
                          completed: set<BlockId>)
    requires Tracks(n, past, declarations, wireIds, completed)
    ensures Admissible(n, b, declarations, wireIds, completed) <==> MayFollow(n, past, b)
  {
    OpenExactly(n, past, declarations, wireIds, completed);
  }

  lemma OpenExactly(n: Names, past: seq<Block>, declarations: set<BlockId>, wireIds: set<string>, completed: set<BlockId>)
    requires Tracks(n, past, declarations, wireIds, completed)
    ensures declarations <= completed <==> NothingOpen(past)
  {
    if declarations <= completed {
      forall i | 0 <= i < |past| && past[i].content.Declaration? ensures IsCompleted(past, past[i].id) {
        assert past[i].id in declarations;
      }
    }
  }

  // -- Chat messages -------------------------------------------------------------------------

  predicate IsTool(message: Json) {
    StrOf(message, "role") == Some("tool")
  }

  function StringIds(calls: seq<Json>): (ids: set<string>)
  {
    set i | 0 <= i < |calls| && StrOf(calls[i], "id").Some? :: StrOf(calls[i], "id").value
  }

  function CallIds(message: Json): set<string> {
    var calls := Get(message, "tool_calls");
    if calls.Some? && calls.value.Arr? then StringIds(calls.value.items) else {}
  }

  /** How many tool messages stand at the front. */
  function ToolRun(ms: seq<Json>): (n: nat)
    ensures n <= |ms| && (forall i :: 0 <= i < n ==> IsTool(ms[i])) && (n < |ms| ==> !IsTool(ms[n]))
  {
    if ms != [] && IsTool(ms[0]) then 1 + ToolRun(ms[1..]) else 0
  }

  function Answers(ms: seq<Json>): (ids: seq<string>)
    ensures |ids| == |ms| && forall i :: 0 <= i < |ids| ==> ids[i] == TextIn(ms[i], "tool_call_id")
  {
    seq(|ms|, i requires 0 <= i < |ms| => TextIn(ms[i], "tool_call_id"))
  }

  /** Each of `owed` once, and nothing else. */
  predicate Exactly(ids: seq<string>, owed: set<string>) {
    Distinct(ids) && (forall i :: 0 <= i < |ids| ==> ids[i] in owed) && (forall id :: id in owed ==> id in ids)
  }

  /** Every message's calls are answered, once each, by the tool messages right after it. */
  predicate ChatPaired(ms: seq<Json>)
    decreases |ms|
  {
    ms == [] ||
    (!IsTool(ms[0]) &&
     var n := ToolRun(ms[1..]);
     Exactly(Answers(ms[1..1 + n]), CallIds(ms[0])) && ChatPaired(ms[1 + n..]))
  }

  /** What remains to be accepted while `pending` calls wait. */
  predicate ChatOwing(pending: set<string>, ms: seq<Json>) {
    var n := ToolRun(ms);
    Exactly(Answers(ms[..n]), pending) && ChatPaired(ms[n..])
  }

  lemma {:induction false} ExactlyFirst(ids: seq<string>, owed: set<string>)
    requires ids != []
    ensures Exactly(ids, owed) <==> ids[0] in owed && Exactly(ids[1..], owed - {ids[0]})
  {
    if Exactly(ids, owed) {
      assert ids[0] in ids;
      forall id ensures id in ids[1..] <==> id in owed - {ids[0]} {
        if id in ids[1..] {
          var i :| 0 <= i < |ids[1..]| && ids[1..][i] == id;
          assert ids[i + 1] == id && ids[0] != ids[i + 1];
        }
      }
    }
    if ids[0] in owed && Exactly(ids[1..], owed - {ids[0]}) {
      forall i, j | 0 <= i < j < |ids| ensures ids[i] != ids[j] {
        assert ids[j] == ids[1..][j - 1];
        assert ids[j] in ids[1..];
        assert i > 0 ==> ids[i] == ids[1..][i - 1];
      }
      assert ids == [ids[0]] + ids[1..];
    }
  }

  lemma {:induction false} OwingTool(pending: set<string>, ms: seq<Json>)
    requires ms != [] && IsTool(ms[0])
    ensures var id := TextIn(ms[0], "tool_call_id");
            ChatOwing(pending, ms) <==> id in pending && ChatOwing(pending - {id}, ms[1..])
  {
    var n := ToolRun(ms);
    assert ms[..n][1..] == ms[1..][..n - 1] && ms[n..] == ms[1..][n - 1..];
    assert Answers(ms[..n])[1..] == Answers(ms[1..][..n - 1]);
    ExactlyFirst(Answers(ms[..n]), pending);
  }

  lemma {:induction false} OwingNow(pending: set<string>, ms: seq<Json>)
    requires ms != [] && !IsTool(ms[0])
    ensures ChatOwing(pending, ms) <==> pending == {} && ChatPaired(ms)
  {
    assert ms[..0] == [] && ms[0..] == ms;
    NoneOwed(pending);
  }

  lemma {:induction false} OwingNext(ms: seq<Json>)
    requires ms != [] && !IsTool(ms[0])
    ensures ChatPaired(ms) <==> ChatOwing(CallIds(ms[0]), ms[1..])
  {
    var n := ToolRun(ms[1..]);
    assert ms[1..][..n] == ms[1..1 + n] && ms[1..][n..] == ms[1 + n..];
  }

  lemma {:induction false} OwingOther(pending: set<string>, ms: seq<Json>)
    requires ms != [] && !IsTool(ms[0])
    ensures ChatOwing(pending, ms) <==> pending == {} && ChatOwing(CallIds(ms[0]), ms[1..])
  {
    OwingNow(pending, ms);
    OwingNext(ms);
  }

  lemma NoneOwed(owed: set<string>)
    ensures Exactly(Answers([]), owed) <==> owed == {}
  {
    if Exactly(Answers([]), owed) {
      assert forall id :: id in owed ==> id in Answers([]);
    }
  }

  /** The walk over Chat messages: accepts exactly the paired lists. */
  method ValidateChat(ms: seq<Json>) returns (ok: bool)
    ensures ok == ChatPaired(ms)
  {
    var pending: set<string>, k := {}, 0;
    assert ms[0..] == ms;
    StartOwing(ms);
    while k < |ms|
      invariant 0 <= k <= |ms|
      invariant ChatOwing(pending, ms[k..]) == ChatPaired(ms)
    {
      assert ms[k..][1..] == ms[k + 1..] && ms[k..][0] == ms[k];
      if IsTool(ms[k]) {
        var id := TextIn(ms[k], "tool_call_id");
        OwingTool(pending, ms[k..]);
        if id !in pending {
          return false;
        }
        pending := pending - {id};
      } else {
        OwingOther(pending, ms[k..]);
        if pending != {} {
          return false;
        }
        pending := CallIds(ms[k]);
      }
      k := k + 1;
    }
    NoneOwed(pending);
    assert ms[k..] == [];
    ok := pending == {};
  }

  lemma {:induction false} StartOwing(ms: seq<Json>)
    ensures ChatOwing({}, ms) == ChatPaired(ms)
  {
    if ms != [] && IsTool(ms[0]) {
      OwingTool({}, ms);
    } else {
      assert ms[..0] == [] && ms[0..] == ms;
      NoneOwed({});
    }
  }

  // -- Anthropic messages --------------------------------------------------------------------

  datatype WireMessage = WireMessage(role: string, content: seq<Json>)

  predicate IsResult(block: Json) {
    StrOf(block, "type") == Some("tool_result")
  }

  predicate IsUse(block: Json) {
    StrOf(block, "type") == Some("tool_use")
  }

  function UseIds(content: seq<Json>): set<string> {
    set i | 0 <= i < |content| && IsUse(content[i]) :: TextIn(content[i], "id")
  }

  function LeadingResults(content: seq<Json>): (n: nat)
    ensures n <= |content| && (forall i :: 0 <= i < n ==> IsResult(content[i])) && (n < |content| ==> !IsResult(content[n]))
  {
    if content != [] && IsResult(content[0]) then 1 + LeadingResults(content[1..]) else 0
  }

  function ResultIds(content: seq<Json>): (ids: seq<string>)
    ensures |ids| == |content| && forall i :: 0 <= i < |ids| ==> ids[i] == TextIn(content[i], "tool_use_id")
  {
    seq(|content|, i requires 0 <= i < |content| => TextIn(content[i], "tool_use_id"))
  }

  /** The tool uses the message before `k` leaves to answer. */
  function Owed(ms: seq<WireMessage>, k: nat): set<string>
    requires k <= |ms|
  {
    if k > 0 && ms[k - 1].role != "user" then UseIds(ms[k - 1].content) else {}
  }

  predicate Plain(block: Json) {
    !IsResult(block) && !IsUse(block)
  }

  predicate MessageFits(m: WireMessage, owed: set<string>) {
    if m.role == "user" then
      var n := LeadingResults(m.content);
      Exactly(ResultIds(m.content[..n]), owed) && forall i :: n <= i < |m.content| ==> Plain(m.content[i])
    else
      owed == {} && forall i :: 0 <= i < |m.content| ==> !IsResult(m.content[i])
  }

  /**
   Each message's tool uses are answered, once each, by the results that begin the next message,
   a user message, and results and uses appear nowhere else.
   */
  predicate AnthropicPaired(ms: seq<WireMessage>) {
    (forall k :: 0 <= k < |ms| ==> MessageFits(ms[k], Owed(ms, k))) && Owed(ms, |ms|) == {}
  }

  /** The user side of the walk: leading results take ids off, anything else must wait for none. */
  method CheckUser(content: seq<Json>, owed: set<string>) returns (ok: bool)
    ensures ok == MessageFits(WireMessage("user", content), owed)
  {
    var pending, sawOther, k := owed, false, 0;
    ghost var n := LeadingResults(content);
    ghost var exact := Exactly(ResultIds(content[..n]), owed);
    assert content[0..n] == content[..n];
    while k < |content|
      invariant 0 <= k <= |content| && (sawOther <==> k > n)
      invariant !sawOther ==> Exactly(ResultIds(content[k..n]), pending) == exact
      invariant sawOther ==> exact && (pending == {} <==> forall i :: n <= i < k ==> Plain(content[i]))
    {
      if IsResult(content[k]) {
        var id := TextIn(content[k], "tool_use_id");
        if sawOther {
          assert !Plain(content[k]);
          return false;
        }
        ExactlyNext(content[k..n], pending);
        assert content[k..n][1..] == content[k + 1..n];
        if id !in pending {
          return false;
        }
        pending := pending - {id};
      } else {
        if !sawOther {
          assert content[k..n] == [];
          NoneLeft(pending);
        }
        sawOther := true;
        if pending != {} {
          return false;
        }
        if IsUse(content[k]) {
          assert !Plain(content[k]);
          pending := pending + {TextIn(content[k], "id")};
        }
      }
      k := k + 1;
    }
    if !sawOther {
      assert content[k..n] == [];
      NoneLeft(pending);
    }
    ok := pending == {};
  }

  lemma ExactlyNext(results: seq<Json>, owed: set<string>)
    requires results != []
    ensures var id := TextIn(results[0], "tool_use_id");
            Exactly(ResultIds(results), owed) <==> id in owed && Exactly(ResultIds(results[1..]), owed - {id})
  {
    assert ResultIds(results)[1..] == ResultIds(results[1..]);
    ExactlyFirst(ResultIds(results), owed);
  }

  lemma NoneLeft(owed: set<string>)
    ensures Exactly(ResultIds([]), owed) <==> owed == {}
  {
    if Exactly(ResultIds([]), owed) {
      assert forall id :: id in owed ==> id in ResultIds([]);
    }
  }

  /** The other side: no results, and its uses are what the next message owes. */
  method CheckOther(content: seq<Json>) returns (ok: bool, pending: set<string>)
    ensures ok == forall i :: 0 <= i < |content| ==> !IsResult(content[i])
    ensures ok ==> pending == UseIds(content)
  {
    pending := {};
    var k := 0;
    while k < |content|
      invariant 0 <= k <= |content|
      invariant forall i :: 0 <= i < k ==> !IsResult(content[i])
      invariant pending == set i | 0 <= i < k && IsUse(content[i]) :: TextIn(content[i], "id")
    {
      if IsResult(content[k]) {
        return false, pending;
      }
      if IsUse(content[k]) {
        pending := pending + {TextIn(content[k], "id")};
      }
      k := k + 1;
    }
    ok := true;
  }

  /** What a message leaves to be answered. */
  function OwedAfter(m: WireMessage): set<string> {
    if m.role == "user" then {} else UseIds(m.content)
  }

  method CheckMessage(m: WireMessage, owed: set<string>) returns (ok: bool, pending: set<string>)
    ensures ok == MessageFits(m, owed)
    ensures ok ==> pending == OwedAfter(m)
  {
    pending := {};
    if m.role == "user" {
      ok := CheckUser(m.content, owed);
      assert m == WireMessage("user", m.content);
    } else if owed != {} {
      ok := false;
    } else {
      ok, pending := CheckOther(m.content);
    }
  }

  /** The first `k` messages fit what the ones before them owe. */
  predicate FitUpTo(ms: seq<WireMessage>, k: nat)
    requires k <= |ms|
  {
    forall j :: 0 <= j < k ==> MessageFits(ms[j], Owed(ms, j))
  }

  lemma FitOn(ms: seq<WireMessage>, k: nat)
    requires k < |ms| && FitUpTo(ms, k)
    ensures FitUpTo(ms, k + 1) <==> MessageFits(ms[k], Owed(ms, k))
    ensures !FitUpTo(ms, k + 1) ==> !AnthropicPaired(ms)
  {
  }

  method ValidateAnthropic(ms: seq<WireMessage>) returns (ok: bool)
    ensures ok == AnthropicPaired(ms)
  {
    var pending: set<string>, k: nat := {}, 0;
    while k < |ms|
      invariant k <= |ms| && pending == Owed(ms, k) && FitUpTo(ms, k)
    {
      FitOn(ms, k);
      ok, pending := CheckMessage(ms[k], pending);
      if !ok {
        return false;
      }
      assert Owed(ms, k + 1) == OwedAfter(ms[k]);
      k := k + 1;
    }
    ok := pending == {};
  }
}
