/** A model's answer as context blocks: one item, one block, in order. */
module Conversion {
  import opened Wrappers
  import opened Model
  import opened Blocks

  datatype ConversionError =
    | EndTurnWithCalls(count: nat)
    | ToolUseWithoutCalls
    | IdCountMismatch(expected: nat, actual: nat)
    | EmptyToolName(index: nat)
    | ArgumentsNotObject(index: nat)

  /** Only text of zero length is dropped. */
  predicate KeepsPart(p: ContentPart) {
    !(p.Text? && p.text == "")
  }

  function KeptParts(parts: seq<ContentPart>): (kept: seq<ContentPart>)
    ensures |kept| <= |parts|
  {
    if parts == [] then []
    else (if KeepsPart(parts[0]) then [parts[0]] else []) + KeptParts(parts[1..])
  }

  lemma KeptOne(part: ContentPart)
    ensures KeptParts([part]) == if KeepsPart(part) then [part] else []
  {
    assert [part][1..] == [];
  }

  /** The item becomes a block. */
  predicate Commits(item: ModelItem) {
    item.content.ToolCall? || KeptParts(item.content.parts) != []
  }

  function BlockCount(items: seq<ModelItem>): nat {
    if items == [] then 0 else (if Commits(items[0]) then 1 else 0) + BlockCount(items[1..])
  }

  function Calls(items: seq<ModelItem>): seq<ToolCallDraft> {
    if items == [] then []
    else (if items[0].content.ToolCall? then [items[0].content.call] else []) + Calls(items[1..])
  }

  function BlockOf(item: ModelItem, id: BlockId): Block {
    match item.content
    case Parts(parts) => Block(id, Message(Assistant, KeptParts(parts)), BlockMeta(None, None, item.wire))
    case ToolCall(call) =>
      Block(id, Declaration(ToolInput(call.toolName, call.arguments)), BlockMeta(call.providerCallId, None, item.wire))
  }

  function BlocksFor(items: seq<ModelItem>, ids: seq<BlockId>): (blocks: seq<Block>)
    requires |ids| == BlockCount(items)
    ensures |blocks| == |ids|
  {
    if items == [] then []
    else if Commits(items[0]) then [BlockOf(items[0], ids[0])] + BlocksFor(items[1..], ids[1..])
    else BlocksFor(items[1..], ids)
  }

  /** The blocks of the rest of an answer, when its first item became a block. */
  lemma BlocksForRest(items: seq<ModelItem>, ids: seq<BlockId>)
    requires items != [] && |ids| == BlockCount(items) && Commits(items[0])
    ensures ids != [] && |ids[1..]| == BlockCount(items[1..])
    ensures BlocksFor(items, ids) != [] && BlocksFor(items, ids)[0] == BlockOf(items[0], ids[0])
    ensures BlocksFor(items, ids)[1..] == BlocksFor(items[1..], ids[1..])
  {
  }

  /** The first call that cannot be declared. */
  function BadCall(blank: string -> bool, calls: seq<ToolCallDraft>, from: nat): Option<ConversionError>
    requires from <= |calls|
    decreases |calls| - from
  {
    if from == |calls| then None
    else if blank(calls[from].toolName) then Some(EmptyToolName(from))
    else if !calls[from].arguments.Obj? then Some(ArgumentsNotObject(from))
    else BadCall(blank, calls, from + 1)
  }

  function ToBlocks(blank: string -> bool, items: seq<ModelItem>, stop: StopReason, ids: seq<BlockId>)
    : Result<seq<Block>, ConversionError>
  {
    var calls := Calls(items);
    if stop.EndTurn? && calls != [] then Err(EndTurnWithCalls(|calls|))
    else if stop.ToolUse? && calls == [] then Err(ToolUseWithoutCalls)
    else if |ids| != BlockCount(items) then Err(IdCountMismatch(BlockCount(items), |ids|))
    else
      var bad := BadCall(blank, calls, 0);
      if bad.Some? then Err(bad.value) else Ok(BlocksFor(items, ids))
  }

  lemma ConvertedBlocks(blank: string -> bool, items: seq<ModelItem>, stop: StopReason, ids: seq<BlockId>, blocks: seq<Block>)
    requires ToBlocks(blank, items, stop, ids) == Ok(blocks)
    ensures |ids| == BlockCount(items) && blocks == BlocksFor(items, ids)
  {
  }

  /** A block a model's answer may become. */
  predicate FromModel(blank: string -> bool, b: Block) {
    match b.content
    case Message(role, _) => role.Assistant?
    case Declaration(input) => !blank(input.toolName) && input.arguments.Obj?
    case _ => false
  }

  lemma {:induction false} BadCallExactly(blank: string -> bool, calls: seq<ToolCallDraft>, from: nat)
    requires from <= |calls|
    ensures BadCall(blank, calls, from).None? <==>
            forall i :: from <= i < |calls| ==> !blank(calls[i].toolName) && calls[i].arguments.Obj?
    decreases |calls| - from
  {
    if from < |calls| {
      BadCallExactly(blank, calls, from + 1);
    }
  }

  /** Every call names a tool and gives it an object. */
  predicate GoodCalls(blank: string -> bool, calls: seq<ToolCallDraft>) {
    forall i :: 0 <= i < |calls| ==> !blank(calls[i].toolName) && calls[i].arguments.Obj?
  }

  function CallIn(item: ModelItem): seq<ToolCallDraft> {
    if item.content.ToolCall? then [item.content.call] else []
  }

  lemma {:induction false} GoodCallsFirst(blank: string -> bool, items: seq<ModelItem>)
    requires items != [] && GoodCalls(blank, Calls(items))
    ensures GoodCalls(blank, Calls(items[1..])) && GoodCalls(blank, CallIn(items[0]))
    ensures |Calls(items)| == |Calls(items[1..])| + |CallIn(items[0])|
  {
    var head, rest := CallIn(items[0]), Calls(items[1..]);
    assert Calls(items) == head + rest;
    forall i | 0 <= i < |head| ensures !blank(head[i].toolName) && head[i].arguments.Obj? {
      assert head[i] == Calls(items)[i];
    }
    forall i | 0 <= i < |rest| ensures !blank(rest[i].toolName) && rest[i].arguments.Obj? {
      assert rest[i] == Calls(items)[|head| + i];
    }
  }

  lemma FirstFromModel(blank: string -> bool, item: ModelItem, id: BlockId)
    requires Commits(item) && GoodCalls(blank, CallIn(item))
    ensures FromModel(blank, BlockOf(item, id))
  {
    if item.content.ToolCall? {
      assert CallIn(item)[0] == item.content.call;
    }
  }

  /** Blocks come in the order of the ids, and all of them are model blocks. */
  lemma {:induction false} BlocksForFacts(blank: string -> bool, items: seq<ModelItem>, ids: seq<BlockId>)
    requires |ids| == BlockCount(items) && GoodCalls(blank, Calls(items))
    ensures Ids(BlocksFor(items, ids)) == ids
    ensures forall i :: 0 <= i < |ids| ==> FromModel(blank, BlocksFor(items, ids)[i])
    ensures Declarations(BlocksFor(items, ids)) == |Calls(items)|
  {
    if items != [] {
      var first, rest := items[0], items[1..];
      GoodCallsFirst(blank, items);
      if Commits(first) {
        BlocksForFacts(blank, rest, ids[1..]);
        var b := BlockOf(first, ids[0]);
        assert FromModel(blank, b) by {
          FirstFromModel(blank, first, ids[0]);
        }
        assert ([b] + BlocksFor(rest, ids[1..]))[1..] == BlocksFor(rest, ids[1..]);
      } else {
        BlocksForFacts(blank, rest, ids);
      }
    }
  }

  function Declarations(blocks: seq<Block>): nat {
    if blocks == [] then 0 else (if blocks[0].content.Declaration? then 1 else 0) + Declarations(blocks[1..])
  }

  lemma ConvertedFacts(blank: string -> bool, items: seq<ModelItem>, stop: StopReason, ids: seq<BlockId>)
    requires ToBlocks(blank, items, stop, ids).Ok?
    ensures var blocks := ToBlocks(blank, items, stop, ids).value;
            && Ids(blocks) == ids
            && (forall i :: 0 <= i < |blocks| ==> FromModel(blank, blocks[i]))
            && (stop.EndTurn? ==> forall i :: 0 <= i < |blocks| ==> !blocks[i].content.Declaration?)
            && (stop.ToolUse? ==> exists i :: 0 <= i < |blocks| && blocks[i].content.Declaration?)
  {
    BadCallExactly(blank, Calls(items), 0);
    BlocksForFacts(blank, items, ids);
    DeclarationsCounted(BlocksFor(items, ids));
  }

  lemma {:induction false} DeclarationsCounted(blocks: seq<Block>)
    ensures Declarations(blocks) == 0 <==> forall i :: 0 <= i < |blocks| ==> !blocks[i].content.Declaration?
  {
    if blocks != [] {
      DeclarationsCounted(blocks[1..]);
      if Declarations(blocks) == 0 {
        forall i | 0 <= i < |blocks| ensures !blocks[i].content.Declaration? {
          assert i > 0 ==> blocks[i] == blocks[1..][i - 1];
        }
      } else if blocks[0].content.Declaration? {
      } else {
        var i :| 0 <= i < |blocks[1..]| && blocks[1..][i].content.Declaration?;
        assert blocks[i + 1].content.Declaration?;
      }
    }
  }

  /** The first call that names no tool or gives it no object. */
  method CheckCalls(blank: string -> bool, calls: seq<ToolCallDraft>) returns (bad: Option<ConversionError>)
    ensures bad == BadCall(blank, calls, 0)
  {
    var c := 0;
    while c < |calls|
      invariant 0 <= c <= |calls| && BadCall(blank, calls, c) == BadCall(blank, calls, 0)
    {
      if blank(calls[c].toolName) {
        return Some(EmptyToolName(c));
      }
      if !calls[c].arguments.Obj? {
        return Some(ArgumentsNotObject(c));
      }
      c := c + 1;
    }
    bad := None;
  }

  /** The first `k` items took `used` ids for the blocks so far, and the rest come to the rest. */
  predicate Making(items: seq<ModelItem>, ids: seq<BlockId>, k: nat, used: nat, blocks: seq<Block>)
    requires BlockCount(items) == |ids|
  {
    && k <= |items| && used <= |ids| && |ids| - used == BlockCount(items[k..])
    && blocks + BlocksFor(items[k..], ids[used..]) == BlocksFor(items, ids)
  }

  lemma {:induction false} MakingMore(items: seq<ModelItem>, ids: seq<BlockId>, k: nat, used: nat, blocks: seq<Block>)
    requires BlockCount(items) == |ids| && Making(items, ids, k, used, blocks) && k < |items|
    ensures Commits(items[k]) ==> used < |ids| && Making(items, ids, k + 1, used + 1, blocks + [BlockOf(items[k], ids[used])])
    ensures !Commits(items[k]) ==> Making(items, ids, k + 1, used, blocks)
  {
    assert items[k..][0] == items[k] && items[k..][1..] == items[k + 1..];
    if Commits(items[k]) {
      assert ids[used..][0] == ids[used] && ids[used..][1..] == ids[used + 1..];
      var b, rest := BlockOf(items[k], ids[used]), BlocksFor(items[k + 1..], ids[used + 1..]);
      assert blocks + ([b] + rest) == blocks + [b] + rest;
    }
  }

  lemma MakingFirst(items: seq<ModelItem>, ids: seq<BlockId>)
    requires BlockCount(items) == |ids|
    ensures Making(items, ids, 0, 0, [])
  {
    assert items[0..] == items && ids[0..] == ids && [] + BlocksFor(items, ids) == BlocksFor(items, ids);
  }

  lemma MakingAll(items: seq<ModelItem>, ids: seq<BlockId>, used: nat, blocks: seq<Block>)
    requires BlockCount(items) == |ids| && Making(items, ids, |items|, used, blocks)
    ensures blocks == BlocksFor(items, ids)
  {
    assert items[|items|..] == [] && BlocksFor([], ids[used..]) == [] && blocks + [] == blocks;
  }

  /** Blocks for the items that commit, each taking the next id. */
  method MakeBlocks(items: seq<ModelItem>, ids: seq<BlockId>) returns (blocks: seq<Block>)
    requires BlockCount(items) == |ids|
    ensures blocks == BlocksFor(items, ids)
  {
    blocks := [];
    var k: nat, used: nat := 0, 0;
    MakingFirst(items, ids);
    while k < |items|
      invariant k <= |items| && Making(items, ids, k, used, blocks)
    {
      MakingMore(items, ids, k, used, blocks);
      if Commits(items[k]) {
        blocks := blocks + [BlockOf(items[k], ids[used])];
        used := used + 1;
      }
      k := k + 1;
    }
    MakingAll(items, ids, used, blocks);
  }

  /** The conversion loop, consuming ids as it goes. */
  method Convert(blank: string -> bool, items: seq<ModelItem>, stop: StopReason, ids: seq<BlockId>)
    returns (result: Result<seq<Block>, ConversionError>)
    ensures result == ToBlocks(blank, items, stop, ids)
  {
    var calls := Calls(items);
    if stop.EndTurn? && calls != [] {
      return Err(EndTurnWithCalls(|calls|));
    }
    if stop.ToolUse? && calls == [] {
      return Err(ToolUseWithoutCalls);
    }
    if BlockCount(items) != |ids| {
      return Err(IdCountMismatch(BlockCount(items), |ids|));
    }
    var bad := CheckCalls(blank, calls);
    if bad.Some? {
      return Err(bad.value);
    }
    var blocks := MakeBlocks(items, ids);
    result := Ok(blocks);
  }
}
