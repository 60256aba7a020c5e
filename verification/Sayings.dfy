/** What a frame says, read off its blocks one by one; the shared walk says it in segments, one for each. */
module Sayings {
  import opened Wrappers
  import opened Sequences
  import opened Json
  import opened Model
  import opened Blocks
  import opened ToolSets
  import opened ToolHistory
  import opened Segments

  /** One thing a frame says, and the block that says it. */
  datatype Saying =
    | Spoken(at: nat, role: Role, text: string)
    | Displayed(at: nat, role: Role, media: MediaRef)
    | Kept(at: nat, item: Json)
    | Called(at: nat)
    | Observed(at: nat)
    | Changed(at: nat)

  predicate BySystem(x: Saying) {
    (x.Spoken? || x.Displayed?) && x.role == System
  }

  /** How many things the system says before anything else is said. */
  function SystemRun(says: seq<Saying>): (n: nat)
    ensures n <= |says|
  {
    if says != [] && BySystem(says[0]) then 1 + SystemRun(says[1..]) else 0
  }

  predicate ByUser(x: Saying) {
    (x.Spoken? || x.Displayed?) && x.role == User
  }

  /** How much the user's block at the front says. */
  function UserBlock(says: seq<Saying>): (n: nat)
    ensures n <= |says| && (n > 0 <==> says != [] && ByUser(says[0]))
  {
    if says == [] || !ByUser(says[0]) then 0
    else if |says| > 1 && ByUser(says[1]) && says[1].at == says[0].at then 1 + UserBlock(says[1..])
    else 1
  }

  /** Everything said at the front by one user's block. */
  lemma {:induction false} AllByUser(says: seq<Saying>)
    ensures forall k :: 0 <= k < UserBlock(says) ==> ByUser(says[k])
    decreases |says|
  {
    if UserBlock(says) > 1 {
      AllByUser(says[1..]);
      assert forall k :: 1 <= k < UserBlock(says) ==> says[k] == says[1..][k - 1];
    }
  }

  /** Empty text says nothing, and a sealed item speaks in its own format only. */
  function PartSays(at: nat, role: Role, part: ContentPart, format: string): seq<Saying> {
    match part
    case Text(text) => if |text| == 0 then [] else [Spoken(at, role, text)]
    case Media(m) => [Displayed(at, role, m)]
    case Sealed(own, item) => if role == Assistant && own == format then [Kept(at, item)] else []
  }

  function PartsSay(at: nat, role: Role, parts: seq<ContentPart>, format: string): seq<Saying> {
    if parts == [] then []
    else PartsSay(at, role, parts[..|parts| - 1], format) + PartSays(at, role, parts[|parts| - 1], format)
  }

  /** The first tool change declares the tools; only a later one is said, and only in place. */
  function BlockSays(blocks: seq<Block>, i: nat, format: string, inPlace: bool): seq<Saying>
    requires i < |blocks|
  {
    match blocks[i].content
    case Message(role, parts) => PartsSay(i, role, parts, format)
    case Declaration(_) => [Called(i)]
    case Outcome(_) => [Observed(i)]
    case ToolsChanged(_) =>
      if inPlace && exists j :: 0 <= j < i && blocks[j].content.ToolsChanged? then [Changed(i)] else []
  }

  /** What the first `n` blocks say. */
  function Says(blocks: seq<Block>, n: nat, format: string, inPlace: bool): seq<Saying>
    requires n <= |blocks|
  {
    if n == 0 then [] else Says(blocks, n - 1, format, inPlace) + BlockSays(blocks, n - 1, format, inPlace)
  }

  function FrameSays(blocks: seq<Block>, format: string, inPlace: bool): seq<Saying> {
    Says(blocks, |blocks|, format, inPlace)
  }

  // -- how a segment says it --------------------------------------------------------------------

  /** The provider's fields of a block, when they are of this format. */
  predicate Carries(b: Block, format: string, fields: Option<Json>) {
    match fields
    case Some(own) => b.meta.wire == Some(WireMeta(format, own))
    case None => b.meta.wire.None? || b.meta.wire.value.format != format
  }

  /** The id a call goes by on the wire: the provider's, or the text of the block's own. */
  function CallName(n: ToolHistory.Names, b: Block): string {
    match b.meta.providerCallId
    case Some(id) => id
    case None => n.idText(b.id)
  }

  predicate Declares(b: Block, id: BlockId) {
    b.content.Declaration? && b.id == id
  }

  /** A call of this block id goes by `name`. */
  ghost predicate GoesBy(n: ToolHistory.Names, blocks: seq<Block>, id: BlockId, name: string) {
    exists j :: 0 <= j < |blocks| && Declares(blocks[j], id) && CallName(n, blocks[j]) == name
  }

  /** Media shows to the user's side where the protocol can carry it, and is named elsewhere. */
  predicate Pictured(env: RenderEnv, user: bool, m: MediaRef, r: Resolved) {
    match r
    case Shown(item) => user && env.show(m) == Some(item)
    case Placeholder(text) => (!user || env.show(m).None?) && text == env.placeholder(m)
  }

  predicate AllPictured(env: RenderEnv, media: seq<MediaRef>, shown: seq<Resolved>) {
    |shown| == |media| && forall k :: 0 <= k < |shown| ==> Pictured(env, true, media[k], shown[k])
  }

  /** A text observation is said as it is, any other as JSON text. */
  function ObservedText(env: RenderEnv, content: Json): string {
    match content
    case Str(text) => text
    case _ => env.codec.print_(content)
  }

  /** The segment says this of the frame. */
  ghost predicate Bears(env: RenderEnv, blocks: seq<Block>, format: string, s: Segment, x: Saying) {
    x.at < |blocks| &&
    var b := blocks[x.at];
    match x
    case Spoken(at, role, text) =>
      && s.TextSegment? && s.role == role && s.text == text && s.block == at
      && b.content.Message? && s.parts == |b.content.parts|
      && (if role.Assistant? then Carries(b, format, s.wire) else s.wire == None)
    case Displayed(at, role, m) =>
      s.MediaSegment? && s.role == role && s.block == at && Pictured(env, role == User, m, s.media)
    case Kept(_, item) => s == SealedSegment(item)
    case Called(_) =>
      && s.CallSegment? && b.content.Declaration? && s.wireId == CallName(env.names, b)
      && s.name == b.content.input.toolName && s.arguments == b.content.input.arguments && Carries(b, format, s.wire)
    case Observed(_) =>
      && s.ResultSegment? && b.content.Outcome? && ObservedIn(env, blocks, b.content.result, s)
    case Changed(_) => b.content.ToolsChanged? && s == ChangeSegment(b.content.change)
  }

  ghost predicate ObservedIn(env: RenderEnv, blocks: seq<Block>, r: ToolResult, s: Segment)
    requires s.ResultSegment?
  {
    && (IsDeclaration(blocks, r.callBlockId) ==> GoesBy(env.names, blocks, r.callBlockId, s.wireId))
    && s.status == r.status && s.content == ObservedText(env, r.output.content) && s.notes == r.notes
    && AllPictured(env, r.media, s.attachments)
  }

  ghost predicate AllBear(env: RenderEnv, blocks: seq<Block>, format: string, segments: seq<Segment>, says: seq<Saying>) {
    |segments| == |says| && forall k :: 0 <= k < |says| ==> Bears(env, blocks, format, segments[k], says[k])
  }

  /** The result of the block at `at`, whose call goes by `name`. */
  ghost predicate ResultOf(env: RenderEnv, blocks: seq<Block>, at: nat, name: string) {
    && at < |blocks| && blocks[at].content.Outcome?
    && (IsDeclaration(blocks, blocks[at].content.result.callBlockId) ==>
          GoesBy(env.names, blocks, blocks[at].content.result.callBlockId, name))
  }

  /** The notes as a list, a line for each. */
  function NoteLines(notes: seq<string>): string {
    if notes == [] then "" else "\n- " + notes[0] + NoteLines(notes[1..])
  }

  /** A result as one text. */
  function Observation(env: RenderEnv, r: ToolResult): string {
    var text := ObservedText(env, r.output.content);
    if r.notes == [] then text else text + "\n\nNotes:" + NoteLines(r.notes)
  }

  // -- how JSON says it ---------------------------------------------------------------------------------

  /** The text part of the Anthropic and the Chat protocol. */
  predicate IsText(v: Json, text: string) {
    v == Obj(map["type" := Str("text"), "text" := Str(text)])
  }

  /** The user's side sees the media, others its name. */
  predicate Shows(env: RenderEnv, user: bool, m: MediaRef, v: Json) {
    match env.show(m)
    case Some(item) => if user then v == item else IsText(v, env.placeholder(m))
    case None => IsText(v, env.placeholder(m))
  }

  // -- the walk ---------------------------------------------------------------------------------------

  lemma BearJoin(env: RenderEnv, blocks: seq<Block>, format: string, a: seq<Segment>, x: seq<Saying>, b: seq<Segment>,
                 y: seq<Saying>)
    requires AllBear(env, blocks, format, a, x) && AllBear(env, blocks, format, b, y)
    ensures AllBear(env, blocks, format, a + b, x + y)
  {
  }

  lemma PartBears(env: RenderEnv, blocks: seq<Block>, i: nat, j: nat, wire: Option<Json>, format: string)
    requires i < |blocks| && blocks[i].content.Message? && j < |blocks[i].content.parts|
    requires if blocks[i].content.role.Assistant? then Carries(blocks[i], format, wire) else wire == None
    ensures var role, parts := blocks[i].content.role, blocks[i].content.parts;
            AllBear(env, blocks, format, PartSegment(env, role, parts[j], i, |parts|, wire, format),
                    PartSays(i, role, parts[j], format))
  {
  }

  lemma {:induction false} PartsBear(env: RenderEnv, blocks: seq<Block>, i: nat, n: nat, wire: Option<Json>, format: string)
    requires i < |blocks| && blocks[i].content.Message? && n <= |blocks[i].content.parts|
    requires if blocks[i].content.role.Assistant? then Carries(blocks[i], format, wire) else wire == None
    ensures var role, parts := blocks[i].content.role, blocks[i].content.parts;
            AllBear(env, blocks, format, PartSegments(env, role, parts, n, i, wire, format),
                    PartsSay(i, role, parts[..n], format))
    decreases n
  {
    if n > 0 {
      var role, parts := blocks[i].content.role, blocks[i].content.parts;
      PartsBear(env, blocks, i, n - 1, wire, format);
      PartBears(env, blocks, i, n - 1, wire, format);
      assert parts[..n][..n - 1] == parts[..n - 1];
      BearJoin(env, blocks, format, PartSegments(env, role, parts, n - 1, i, wire, format),
               PartsSay(i, role, parts[..n - 1], format),
               PartSegment(env, role, parts[n - 1], i, |parts|, wire, format), PartSays(i, role, parts[n - 1], format));
    }
  }

  lemma {:induction false} OutcomeBears(env: RenderEnv, blocks: seq<Block>, i: nat, format: string, inPlace: bool)
    requires i < |blocks| && blocks[i].content.Outcome?
    ensures AllBear(env, blocks, format, BlockSegments(env, blocks, i, format, inPlace), [Observed(i)])
  {
    var id := blocks[i].content.result.callBlockId;
    ResultsFindCalls(env.names, blocks, id);
    if IsDeclaration(blocks, id) {
      var j :| 0 <= j < |blocks| && blocks[j].content.Declaration? && blocks[j].id == id
               && WireIdOf(env.names, blocks, id).value == WireId(env.names, blocks[j]);
      assert Declares(blocks[j], id) && CallName(env.names, blocks[j]) == WireIdOf(env.names, blocks, id).value;
    }
  }

  lemma {:induction false} ChangedBefore(blocks: seq<Block>, i: nat)
    requires i <= |blocks|
    ensures ChangesOf(blocks[..i]) != [] <==> exists j :: 0 <= j < i && blocks[j].content.ToolsChanged?
    decreases i
  {
    if i > 0 {
      ChangedBefore(blocks, i - 1);
      assert blocks[..i][..i - 1] == blocks[..i - 1];
    }
  }

  lemma {:induction false} BlockBears(env: RenderEnv, blocks: seq<Block>, i: nat, format: string, inPlace: bool)
    requires i < |blocks|
    ensures AllBear(env, blocks, format, BlockSegments(env, blocks, i, format, inPlace), BlockSays(blocks, i, format, inPlace))
  {
    match blocks[i].content
    case Message(role, parts) =>
      PartsBear(env, blocks, i, |parts|, if role.Assistant? then OwnWire(blocks[i], format) else None, format);
      assert parts[..|parts|] == parts;
    case Outcome(_) => OutcomeBears(env, blocks, i, format, inPlace);
    case ToolsChanged(_) => ChangedBefore(blocks, i);
    case Declaration(_) =>
  }

  /** The segments of a frame are what its blocks say, in order. */
  lemma {:induction false} SegmentsBear(env: RenderEnv, blocks: seq<Block>, n: nat, format: string, inPlace: bool)
    requires n <= |blocks|
    ensures AllBear(env, blocks, format, SegmentsOf(env, blocks, 0, n, format, inPlace), Says(blocks, n, format, inPlace))
    decreases n
  {
    if n > 0 {
      SegmentsBear(env, blocks, n - 1, format, inPlace);
      BlockBears(env, blocks, n - 1, format, inPlace);
      BearJoin(env, blocks, format, SegmentsOf(env, blocks, 0, n - 1, format, inPlace), Says(blocks, n - 1, format, inPlace),
               BlockSegments(env, blocks, n - 1, format, inPlace), BlockSays(blocks, n - 1, format, inPlace));
    }
  }

  /** In a sendable frame a result's call goes by one name only. */
  lemma OneName(n: ToolHistory.Names, blocks: seq<Block>, id: BlockId, a: string, b: string)
    requires Sendable(n, blocks) && GoesBy(n, blocks, id, a) && GoesBy(n, blocks, id, b)
    ensures a == b
  {
    var i :| 0 <= i < |blocks| && Declares(blocks[i], id) && CallName(n, blocks[i]) == a;
    var j :| 0 <= j < |blocks| && Declares(blocks[j], id) && CallName(n, blocks[j]) == b;
    DeclaredApart(n, blocks, if i < j then i else j, if i < j then j else i);
  }

  lemma DeclaredApart(n: ToolHistory.Names, blocks: seq<Block>, i: nat, j: nat)
    requires InOrder(n, blocks) && i <= j < |blocks| && blocks[i].content.Declaration? && blocks[j].content.Declaration?
    ensures i == j || blocks[i].id != blocks[j].id
  {
    assert MayFollow(n, blocks[..j], blocks[j]);
    assert i < j ==> blocks[..j][i] == blocks[i];
  }

  // -- frames that may be sent ---------------------------------------------------------------------------

  predicate AnsweredBefore(blocks: seq<Block>, id: BlockId, k: nat)
    requires k <= |blocks|
  {
    exists i :: 0 <= i < k && blocks[i].content.Outcome? && blocks[i].content.result.callBlockId == id
  }

  predicate DeclaredBefore(blocks: seq<Block>, id: BlockId, k: nat)
    requires k <= |blocks|
  {
    exists j :: 0 <= j < k && Declares(blocks[j], id)
  }

  /** Every call names a tool, has an object for arguments, and goes by a name of its own. */
  predicate CallsApart(n: ToolHistory.Names, blocks: seq<Block>) {
    && (forall k :: 0 <= k < |blocks| && blocks[k].content.Declaration? ==>
          !n.blank(blocks[k].content.input.toolName) && blocks[k].content.input.arguments.Obj? && CallName(n, blocks[k]) != "")
    && (forall j, k :: 0 <= j < k < |blocks| && blocks[j].content.Declaration? && blocks[k].content.Declaration? ==>
          blocks[j].id != blocks[k].id && CallName(n, blocks[j]) != CallName(n, blocks[k]))
  }

  /** Every result answers a call before it, no call has two, and every call has one in the end. */
  predicate ResultsAnswer(blocks: seq<Block>) {
    && (forall k :: 0 <= k < |blocks| && blocks[k].content.Outcome? ==>
          && DeclaredBefore(blocks, blocks[k].content.result.callBlockId, k)
          && !AnsweredBefore(blocks, blocks[k].content.result.callBlockId, k))
    && (forall k :: 0 <= k < |blocks| && blocks[k].content.Declaration? ==>
          AnsweredBefore(blocks, blocks[k].id, |blocks|))
  }

  /** Tools change only when no call is open, and what is added has names, each once. */
  predicate ChangesBetween(blocks: seq<Block>) {
    forall c :: 0 <= c < |blocks| && blocks[c].content.ToolsChanged? ==>
      && (forall j :: 0 <= j < c && blocks[j].content.Declaration? ==> AnsweredBefore(blocks, blocks[j].id, c))
      && NamedOnce(blocks[c].content.change.added)
  }

  predicate NamedOnce(added: seq<ToolDefinition>) {
    && (forall a :: 0 <= a < |added| ==> |added[a].name| > 0)
    && (forall a, b :: 0 <= a < |added| && 0 <= b < |added| && added[a].name == added[b].name ==> a == b)
  }

  /** Only the assistant has sealed parts. */
  predicate SealedIsAssistants(blocks: seq<Block>) {
    forall k :: 0 <= k < |blocks| && blocks[k].content.Message? ==>
      SealedOnlyIn(blocks[k].content.role, blocks[k].content.parts)
  }

  predicate SealedOnlyIn(role: Role, parts: seq<ContentPart>) {
    forall i :: 0 <= i < |parts| && parts[i].Sealed? ==> role == Assistant
  }

  lemma {:induction false} BeforeSo(n: ToolHistory.Names, blocks: seq<Block>, id: BlockId, k: nat)
    requires k <= |blocks|
    ensures DeclaredBefore(blocks, id, k) <==> IsDeclaration(blocks[..k], id)
    ensures AnsweredBefore(blocks, id, k) <==> IsCompleted(blocks[..k], id)
  {
    if DeclaredBefore(blocks, id, k) {
      var j :| 0 <= j < k && Declares(blocks[j], id);
      assert blocks[..k][j] == blocks[j];
    }
    if AnsweredBefore(blocks, id, k) {
      var i :| 0 <= i < k && blocks[i].content.Outcome? && blocks[i].content.result.callBlockId == id;
      assert blocks[..k][i] == blocks[i];
    }
  }

  /** What one block must be for the ones before it. */
  predicate BlockFits(n: ToolHistory.Names, blocks: seq<Block>, k: nat)
    requires k < |blocks|
  {
    match blocks[k].content
    case Declaration(input) =>
      && !n.blank(input.toolName) && input.arguments.Obj? && CallName(n, blocks[k]) != ""
      && forall j :: 0 <= j < k && blocks[j].content.Declaration? ==>
           blocks[j].id != blocks[k].id && CallName(n, blocks[j]) != CallName(n, blocks[k])
    case Outcome(r) => DeclaredBefore(blocks, r.callBlockId, k) && !AnsweredBefore(blocks, r.callBlockId, k)
    case ToolsChanged(change) =>
      && (forall j :: 0 <= j < k && blocks[j].content.Declaration? ==> AnsweredBefore(blocks, blocks[j].id, k))
      && NamedOnce(change.added)
    case Message(role, parts) => SealedOnlyIn(role, parts)
  }

  lemma {:induction false} BlockFitsExactly(n: ToolHistory.Names, blocks: seq<Block>, k: nat)
    requires k < |blocks|
    ensures BlockFits(n, blocks, k) <==> MayFollow(n, blocks[..k], blocks[k])
  {
    assert forall j :: 0 <= j < k ==> blocks[..k][j] == blocks[j] && CallName(n, blocks[j]) == WireId(n, blocks[..k][j]);
    forall id ensures (DeclaredBefore(blocks, id, k) <==> IsDeclaration(blocks[..k], id))
                      && (AnsweredBefore(blocks, id, k) <==> IsCompleted(blocks[..k], id))
    {
      BeforeSo(n, blocks, id, k);
    }
  }

  /** The history check lets through exactly the frames that keep these rules, position by position. */
  lemma {:induction false} SendableExactly(n: ToolHistory.Names, blocks: seq<Block>)
    ensures Sendable(n, blocks) <==> Rules(n, blocks)
  {
    forall k | 0 <= k < |blocks| ensures BlockFits(n, blocks, k) <==> MayFollow(n, blocks[..k], blocks[k]) {
      BlockFitsExactly(n, blocks, k);
    }
    forall id ensures AnsweredBefore(blocks, id, |blocks|) <==> IsCompleted(blocks, id) {
      BeforeSo(n, blocks, id, |blocks|);
      assert blocks[..|blocks|] == blocks;
    }
    if AllFit(n, blocks) {
      FitsAreRules(n, blocks);
    }
    if Rules(n, blocks) {
      RulesAreFits(n, blocks);
    }
  }

  predicate AllFit(n: ToolHistory.Names, blocks: seq<Block>) {
    && (forall k :: 0 <= k < |blocks| ==> BlockFits(n, blocks, k))
    && (forall k :: 0 <= k < |blocks| && blocks[k].content.Declaration? ==> AnsweredBefore(blocks, blocks[k].id, |blocks|))
  }

  predicate Rules(n: ToolHistory.Names, blocks: seq<Block>) {
    CallsApart(n, blocks) && ResultsAnswer(blocks) && ChangesBetween(blocks) && SealedIsAssistants(blocks)
  }

  lemma {:induction false} FitsAreRules(n: ToolHistory.Names, blocks: seq<Block>)
    requires AllFit(n, blocks)
    ensures Rules(n, blocks)
  {
    forall k | 0 <= k < |blocks| && blocks[k].content.Declaration?
      ensures !n.blank(blocks[k].content.input.toolName) && blocks[k].content.input.arguments.Obj?
              && CallName(n, blocks[k]) != ""
    {
      assert BlockFits(n, blocks, k);
    }
    forall j, k | 0 <= j < k < |blocks| && blocks[j].content.Declaration? && blocks[k].content.Declaration?
      ensures blocks[j].id != blocks[k].id && CallName(n, blocks[j]) != CallName(n, blocks[k])
    {
      assert BlockFits(n, blocks, k);
    }
    forall k | 0 <= k < |blocks| && blocks[k].content.Outcome?
      ensures DeclaredBefore(blocks, blocks[k].content.result.callBlockId, k)
              && !AnsweredBefore(blocks, blocks[k].content.result.callBlockId, k)
    {
      assert BlockFits(n, blocks, k);
    }
    forall c | 0 <= c < |blocks| && blocks[c].content.ToolsChanged?
      ensures NamedOnce(blocks[c].content.change.added)
              && forall j :: 0 <= j < c && blocks[j].content.Declaration? ==> AnsweredBefore(blocks, blocks[j].id, c)
    {
      assert BlockFits(n, blocks, c);
    }
    forall k | 0 <= k < |blocks| && blocks[k].content.Message?
      ensures SealedOnlyIn(blocks[k].content.role, blocks[k].content.parts)
    {
      assert BlockFits(n, blocks, k);
    }
  }

  lemma {:induction false} RulesAreFits(n: ToolHistory.Names, blocks: seq<Block>)
    requires Rules(n, blocks)
    ensures AllFit(n, blocks)
  {
    forall k | 0 <= k < |blocks| ensures BlockFits(n, blocks, k) {
    }
  }
}
