/**
 What an Anthropic request says, read off its JSON: block for block, what the frame says. The
 keys and texts are the protocol's, written out; only the blocks of tool changes are read elsewhere.
 */
module AnthropicReadback {
  import opened Wrappers
  import opened Sequences
  import opened Json
  import opened Model
  import opened Blocks
  import opened ToolSets
  import opened ToolPlan
  import opened ToolHistory
  import opened Segments
  import opened Sayings
  import opened AnthropicWire
  import AnthropicReplay

  // -- one content block ------------------------------------------------------------------------

  /** The provider's fields of a block, as the object they were read from. */
  function OwnFields(b: Block): Fields {
    match b.meta.wire
    case Some(WireMeta(format, Obj(fields))) => if format == "anthropic_messages" then fields else map[]
    case _ => map[]
  }

  /** Every member but those in `facts` is the provider's; a missing type is filled in. */
  ghost predicate Around(v: Json, fields: Fields, blockType: string, facts: set<string>) {
    v.Obj? && forall key :: key !in facts ==>
                              Get(v, key) == if key in fields then Some(fields[key])
                                             else if key == "type" then Some(Str(blockType)) else None
  }

  /** The text of an observation, its notes and its media, in this order. */
  predicate Observes(env: RenderEnv, r: ToolResult, content: Json) {
    var text := ObservedText(env, r.output.content);
    if r.notes == [] && r.media == [] then content == Str(text)
    else
      var lead := if r.notes == [] then 1 else 2 + |r.notes|;
      && content.Arr? && |content.items| == lead + |r.media| && IsText(content.items[0], text)
      && (r.notes != [] ==> IsText(content.items[1], "Notes:"))
      && (forall k :: 0 <= k < |r.notes| ==> IsText(content.items[2 + k], "- " + r.notes[k]))
      && (forall k :: 0 <= k < |r.media| ==> Shows(env, true, r.media[k], content.items[lead + k]))
  }

  /** Only what did not succeed is an error. */
  ghost predicate Answers(env: RenderEnv, blocks: seq<Block>, r: ToolResult, v: Json) {
    && v.Obj?
    && v.fields.Keys == {"type", "tool_use_id", "content"} + (if r.status == Succeeded then {} else {"is_error"})
    && v.fields["type"] == Str("tool_result") && v.fields["tool_use_id"].Str?
    && (IsDeclaration(blocks, r.callBlockId) ==> GoesBy(env.names, blocks, r.callBlockId, v.fields["tool_use_id"].s))
    && Observes(env, r, v.fields["content"])
    && (r.status != Succeeded ==> v.fields["is_error"] == Bool(true))
  }

  function Speaker(role: Role): string {
    match role
    case System => "system"
    case User => "user"
    case Assistant => "assistant"
  }

  /** A text of the assistant keeps the provider's fields when it is its block's only part. */
  ghost predicate Speaks(blocks: seq<Block>, at: nat, role: Role, text: string, v: Json) {
    if role != Assistant then IsText(v, text)
    else
      at < |blocks| && blocks[at].content.Message? &&
      var fields := if |blocks[at].content.parts| == 1 then OwnFields(blocks[at]) else map[];
      Around(v, fields, "text", {"text"}) && Get(v, "text") == Some(Str(text))
  }

  ghost predicate Calls(env: RenderEnv, b: Block, v: Json) {
    && b.content.Declaration? && Around(v, OwnFields(b), "tool_use", {"id", "name", "input"})
    && Get(v, "id") == Some(Str(CallName(env.names, b)))
    && Get(v, "name") == Some(Str(b.content.input.toolName)) && Get(v, "input") == Some(b.content.input.arguments)
  }

  /** The content block `v` in a message of `role` says `x`. */
  ghost predicate Tells(env: RenderEnv, blocks: seq<Block>, x: Saying, role: string, v: Json) {
    match x
    case Spoken(at, who, text) => role == Speaker(who) && Speaks(blocks, at, who, text, v)
    case Displayed(_, who, m) => role == Speaker(who) && Shows(env, who == User, m, v)
    case Kept(_, item) => role == "assistant" && v == item
    case Called(at) => role == "assistant" && at < |blocks| && Calls(env, blocks[at], v)
    case Observed(at) =>
      role == "user" && at < |blocks| && blocks[at].content.Outcome? && Answers(env, blocks, blocks[at].content.result, v)
    case Changed(_) => false
  }

  /** Blank texts of the assistant are not sent, and tool changes are read elsewhere. */
  predicate Unsent(env: RenderEnv, x: Saying) {
    x.Changed? || (x.Spoken? && x.role == Assistant && env.names.blank(x.text))
  }

  function Audible(env: RenderEnv, says: seq<Saying>): seq<Saying> {
    if says == [] then []
    else Audible(env, says[..|says| - 1]) + if Unsent(env, says[|says| - 1]) then [] else [says[|says| - 1]]
  }

  // -- one segment --------------------------------------------------------------------------------

  /** What a segment adds to the conversation, tool changes apart. */
  function Heard(env: RenderEnv, s: Segment): seq<(string, Cell)> {
    if s.ChangeSegment? then [] else Labelled(CellsOf(env, [], s).0, CellsOf(env, [], s).1)
  }

  /** A sealed item is marked as one. */
  ghost predicate CellTells(env: RenderEnv, blocks: seq<Block>, x: Saying, c: (string, Cell)) {
    Tells(env, blocks, x, c.0, c.1.block) && c.1.kind == (if x.Kept? then Verbatim else Plain)
  }

  ghost predicate AllTell(env: RenderEnv, blocks: seq<Block>, says: seq<Saying>, cells: seq<(string, Cell)>) {
    |says| == |cells| && forall k :: 0 <= k < |says| ==> CellTells(env, blocks, says[k], cells[k])
  }

  lemma TellJoin(env: RenderEnv, blocks: seq<Block>, x: seq<Saying>, a: seq<(string, Cell)>, y: seq<Saying>,
                 b: seq<(string, Cell)>)
    requires AllTell(env, blocks, x, a) && AllTell(env, blocks, y, b)
    ensures AllTell(env, blocks, x + y, a + b)
  {
  }

  lemma PictureShows(env: RenderEnv, user: bool, m: MediaRef, r: Resolved)
    requires Pictured(env, user, m, r)
    ensures Shows(env, user, m, ShownJson(r))
  {
  }

  lemma OwnResidue(b: Block, wire: Option<Json>)
    requires Carries(b, ANTHROPIC, wire)
    ensures ResidueObject(wire) == OwnFields(b)
  {
  }

  lemma TextTells(blocks: seq<Block>, at: nat, text: string, parts: nat, wire: Option<Json>)
    requires at < |blocks| && blocks[at].content.Message? && parts == |blocks[at].content.parts|
    requires Carries(blocks[at], ANTHROPIC, wire)
    ensures Speaks(blocks, at, Assistant, text, AssistantText(text, parts, wire))
  {
    OwnResidue(blocks[at], wire);
  }

  lemma CallTells(env: RenderEnv, b: Block, wire: Option<Json>)
    requires b.content.Declaration? && Carries(b, ANTHROPIC, wire)
    ensures Calls(env, b, ToolUseJson(CallName(env.names, b), b.content.input.toolName, b.content.input.arguments, wire))
  {
    OwnResidue(b, wire);
  }

  lemma ContentObserves(env: RenderEnv, r: ToolResult, media: seq<Resolved>)
    requires AllPictured(env, r.media, media)
    ensures Observes(env, r, ResultContent(ObservedText(env, r.output.content), r.notes, media))
  {
    forall k | 0 <= k < |media| ensures Shows(env, true, r.media[k], ShownJson(media[k])) {
      PictureShows(env, true, r.media[k], media[k]);
    }
  }

  lemma ResultTells(env: RenderEnv, blocks: seq<Block>, r: ToolResult, s: Segment)
    requires s.ResultSegment? && ObservedIn(env, blocks, r, s)
    ensures Answers(env, blocks, r, ToolResultJson(s.wireId, s.status, ResultContent(s.content, s.notes, s.attachments)))
  {
    ContentObserves(env, r, s.attachments);
  }

  lemma {:induction false} SegmentTells(env: RenderEnv, blocks: seq<Block>, s: Segment, x: Saying)
    requires Bears(env, blocks, ANTHROPIC, s, x)
    ensures AllTell(env, blocks, Audible(env, [x]), Heard(env, s))
  {
    assert [x][..0] == [] && Audible(env, []) == [];
    match x
    case Spoken(at, role, text) =>
      if role.Assistant? {
        TextTells(blocks, at, text, s.parts, s.wire);
      }
    case Displayed(_, role, m) => PictureShows(env, role == User, m, s.media);
    case Called(at) => CallTells(env, blocks[at], s.wire);
    case Observed(at) => ResultTells(env, blocks, blocks[at].content.result, s);
    case _ =>
  }

  // -- a conversation ------------------------------------------------------------------------------

  function AllHeard(env: RenderEnv, segments: seq<Segment>): seq<(string, Cell)> {
    if segments == [] then [] else AllHeard(env, segments[..|segments| - 1]) + Heard(env, segments[|segments| - 1])
  }

  lemma {:induction false} HeardJoin(env: RenderEnv, a: seq<Segment>, b: seq<Segment>)
    ensures AllHeard(env, a + b) == AllHeard(env, a) + AllHeard(env, b)
    decreases |b|
  {
    if b == [] {
      NoneLast(a);
    } else {
      var early, last := b[..|b| - 1], b[|b| - 1];
      HeardJoin(env, a, early);
      SplitLast(b);
      Associate(a, early, [last]);
      assert (a + b)[..|a + b| - 1] == a + early && (a + b)[|a + b| - 1] == last;
      Associate(AllHeard(env, a), AllHeard(env, early), Heard(env, last));
    }
  }

  lemma AudibleMore(env: RenderEnv, says: seq<Saying>, x: Saying)
    ensures Audible(env, says + [x]) == Audible(env, says) + Audible(env, [x])
  {
    assert (says + [x])[..|says|] == says;
    assert [x][..0] == [] && Audible(env, []) == [];
    NoneFirst(if Unsent(env, x) then [] else [x]);
  }

  lemma {:induction false} SegmentsTell(env: RenderEnv, blocks: seq<Block>, segments: seq<Segment>, says: seq<Saying>)
    requires AllBear(env, blocks, ANTHROPIC, segments, says)
    ensures AllTell(env, blocks, Audible(env, says), AllHeard(env, segments))
    decreases |says|
  {
    if says != [] {
      var k := |says| - 1;
      SegmentsTell(env, blocks, segments[..k], says[..k]);
      SegmentTells(env, blocks, segments[k], says[k]);
      SplitLast(says);
      AudibleMore(env, says[..k], says[k]);
      TellJoin(env, blocks, Audible(env, says[..k]), AllHeard(env, segments[..k]), Audible(env, [says[k]]),
               Heard(env, segments[k]));
    }
  }

  /** The blocks of a conversation, tool changes apart. */
  function Others(cells: seq<(string, Cell)>): seq<(string, Cell)> {
    if cells == [] then []
    else Others(cells[..|cells| - 1]) + if cells[|cells| - 1].1.kind == Change then [] else [cells[|cells| - 1]]
  }

  lemma {:induction false} OthersJoin(a: seq<(string, Cell)>, b: seq<(string, Cell)>)
    ensures Others(a + b) == Others(a) + Others(b)
    decreases |b|
  {
    if b == [] {
      NoneLast(a);
    } else {
      var early, last := b[..|b| - 1], b[|b| - 1];
      OthersJoin(a, early);
      assert (a + b)[..|a + b| - 1] == a + early && (a + b)[|a + b| - 1] == last;
      Associate(Others(a), Others(early), if last.1.kind == Change then [] else [last]);
    }
  }

  lemma {:induction false} OthersOfOneKind(cells: seq<(string, Cell)>, change: bool)
    requires forall k :: 0 <= k < |cells| ==> (cells[k].1.kind == Change <==> change)
    ensures Others(cells) == if change then [] else cells
    decreases |cells|
  {
    if cells != [] {
      SplitLast(cells);
      OthersOfOneKind(cells[..|cells| - 1], change);
    }
  }

  lemma HeardIsOthers(env: RenderEnv, offered: Tools, s: Segment)
    ensures Others(Labelled(CellsOf(env, offered, s).0, CellsOf(env, offered, s).1)) == Heard(env, s)
  {
    OthersOfOneKind(Labelled(CellsOf(env, offered, s).0, CellsOf(env, offered, s).1), s.ChangeSegment?);
  }

  lemma {:induction false} ConversationHeard(env: RenderEnv, b: Body, segments: seq<Segment>)
    requires RenderAll(env, b, segments).Ok?
    ensures Others(Flat(RenderAll(env, b, segments).value.messages)) == Others(Flat(b.messages)) + AllHeard(env, segments)
    decreases |segments|
  {
    if segments == [] {
      NoneLast(Others(Flat(b.messages)));
    } else {
      var early, last := segments[..|segments| - 1], segments[|segments| - 1];
      ConversationHeard(env, b, early);
      var past := RenderAll(env, b, early).value;
      OneAppends(env, past, last);
      var (role, cells) := CellsOf(env, past.offered, last);
      OthersJoin(Flat(past.messages), Labelled(role, cells));
      HeardIsOthers(env, past.offered, last);
      Associate(Others(Flat(b.messages)), AllHeard(env, early), Heard(env, last));
    }
  }

  // -- tool changes are told apart by their JSON ------------------------------------------------------

  predicate IsChange(role: string, v: Json) {
    role == "system" && (Get(v, "type") == Some(Str("tool_removal")) || Get(v, "type") == Some(Str("tool_addition")))
  }

  ghost predicate KindsShow(cells: seq<(string, Cell)>) {
    forall k :: 0 <= k < |cells| ==> (cells[k].1.kind == Change <==> IsChange(cells[k].0, cells[k].1.block))
  }

  lemma TextIsNoChange(role: string, text: string)
    ensures !IsChange(role, TextJson(text))
  {
  }

  /** Segments a walk can come up with: only the user's media show. */
  predicate Ordinary(s: Segment) {
    s.MediaSegment? ==> s.role.User? || s.media.Placeholder?
  }

  lemma SegmentKindsShow(env: RenderEnv, offered: Tools, s: Segment)
    requires Ordinary(s)
    ensures KindsShow(Labelled(CellsOf(env, offered, s).0, CellsOf(env, offered, s).1))
  {
    if s.TextSegment? {
      TextIsNoChange(RoleName(s.role), s.text);
    } else if s.MediaSegment? && s.media.Placeholder? {
      TextIsNoChange(RoleName(s.role), s.media.text);
    }
  }

  lemma {:induction false} ConversationKindsShow(env: RenderEnv, b: Body, segments: seq<Segment>)
    requires KindsShow(Flat(b.messages)) && RenderAll(env, b, segments).Ok?
    requires forall k :: 0 <= k < |segments| ==> Ordinary(segments[k])
    ensures KindsShow(Flat(RenderAll(env, b, segments).value.messages))
    decreases |segments|
  {
    if segments != [] {
      var early, last := segments[..|segments| - 1], segments[|segments| - 1];
      ConversationKindsShow(env, b, early);
      var past := RenderAll(env, b, early).value;
      OneAppends(env, past, last);
      SegmentKindsShow(env, past.offered, last);
    }
  }

  // -- the request as it is sent ------------------------------------------------------------------------

  function OfRole(role: string, content: seq<Json>): (r: seq<(string, Json)>)
    ensures |r| == |content| && forall j :: 0 <= j < |r| ==> r[j] == (role, content[j])
  {
    seq(|content|, j requires 0 <= j < |content| => (role, content[j]))
  }

  /** All content blocks of the messages in order, each with its message's role. */
  function Listed(ms: seq<ToolHistory.WireMessage>): seq<(string, Json)> {
    if ms == [] then [] else Listed(ms[..|ms| - 1]) + OfRole(ms[|ms| - 1].role, ms[|ms| - 1].content)
  }

  /** What is read of a conversation when tool changes are left out. */
  function Speech(listed: seq<(string, Json)>): seq<(string, Json)> {
    if listed == [] then []
    else
      var last := listed[|listed| - 1];
      Speech(listed[..|listed| - 1]) + if IsChange(last.0, last.1) then [] else [last]
  }

  /** `v` is `u`, or `u` with the cache marker on it. */
  predicate MarkedOrNot(u: Json, v: Json) {
    v == u || (u.Obj? && v == Obj(u.fields["cache_control" := Obj(map["type" := Str("ephemeral")])]))
  }

  /** The block sent says `x`; a sealed item is sent as it is. */
  ghost predicate Said(env: RenderEnv, blocks: seq<Block>, x: Saying, role: string, v: Json) {
    exists u :: Tells(env, blocks, x, role, u) && (if x.Kept? then v == u else MarkedOrNot(u, v))
  }

  /**
   The system list and then the messages say, block for block and in order, what the frame says;
   the system list is what the system says before anything else.
   */
  ghost predicate Conveys(env: RenderEnv, blocks: seq<Block>, inPlace: bool, system: seq<Json>,
                          messages: seq<ToolHistory.WireMessage>)
  {
    var says := FrameSays(blocks, "anthropic_messages", inPlace);
    var audible, heard := Audible(env, says), OfRole("system", system) + Speech(Listed(messages));
    && |system| == SystemRun(says) && |heard| == |audible|
    && forall k :: 0 <= k < |heard| ==> Said(env, blocks, audible[k], heard[k].0, heard[k].1)
  }

  // -- cells and what is sent of them ----------------------------------------------------------------------

  /** One cell, as it goes out. */
  predicate Goes(c: (string, Cell), v: (string, Json)) {
    v.0 == c.0 && if c.1.kind == Plain then MarkedOrNot(c.1.block, v.1) else v.1 == c.1.block
  }

  ghost predicate AllGo(cells: seq<(string, Cell)>, listed: seq<(string, Json)>) {
    |cells| == |listed| && forall k :: 0 <= k < |cells| ==> Goes(cells[k], listed[k])
  }

  lemma GoJoin(a: seq<(string, Cell)>, x: seq<(string, Json)>, b: seq<(string, Cell)>, y: seq<(string, Json)>)
    requires AllGo(a, x) && AllGo(b, y)
    ensures AllGo(a + b, x + y)
  {
  }

  /** The messages, as they go out. */
  ghost predicate MessagesGo(ms: seq<Tagged>, sent: seq<ToolHistory.WireMessage>) {
    |ms| == |sent| &&
    forall k :: 0 <= k < |ms| ==> AllGo(Labelled(ms[k].role, ms[k].cells), OfRole(sent[k].role, sent[k].content))
  }

  lemma {:induction false} MessagesListed(ms: seq<Tagged>, sent: seq<ToolHistory.WireMessage>)
    requires MessagesGo(ms, sent)
    ensures AllGo(Flat(ms), Listed(sent))
    decreases |ms|
  {
    if ms != [] {
      var k := |ms| - 1;
      MessagesListed(ms[..k], sent[..k]);
      GoJoin(Flat(ms[..k]), Listed(sent[..k]), Labelled(ms[k].role, ms[k].cells), OfRole(sent[k].role, sent[k].content));
    }
  }

  lemma {:induction false} SpeechGoes(cells: seq<(string, Cell)>, listed: seq<(string, Json)>)
    requires AllGo(cells, listed) && KindsShow(cells)
    ensures AllGo(Others(cells), Speech(listed))
    decreases |cells|
  {
    if cells != [] {
      var k := |cells| - 1;
      SpeechGoes(cells[..k], listed[..k]);
      assert Goes(cells[k], listed[k]);
      assert IsChange(listed[k].0, listed[k].1) <==> IsChange(cells[k].0, cells[k].1.block);
      GoJoin(Others(cells[..k]), Speech(listed[..k]), if cells[k].1.kind == Change then [] else [cells[k]],
             if IsChange(listed[k].0, listed[k].1) then [] else [listed[k]]);
    }
  }

  lemma UnmarkedGo(ms: seq<Tagged>)
    ensures MessagesGo(ms, Untagged(ms))
  {
  }

  lemma MarkedGo(ms: seq<Tagged>, m: nat, i: nat)
    requires IsAnchor(ms, m, i)
    ensures MessagesGo(ms, Untagged(MarkAt(ms, m, i)))
  {
  }

  lemma SaidAsSent(env: RenderEnv, blocks: seq<Block>, x: Saying, c: (string, Cell), v: (string, Json))
    requires CellTells(env, blocks, x, c) && Goes(c, v)
    ensures Said(env, blocks, x, v.0, v.1)
  {
    assert Tells(env, blocks, x, v.0, c.1.block);
  }

  // -- the system list --------------------------------------------------------------------------------------

  lemma {:induction false} LeadingIsRun(env: RenderEnv, blocks: seq<Block>, segments: seq<Segment>, says: seq<Saying>)
    requires AllBear(env, blocks, ANTHROPIC, segments, says)
    ensures LeadingSystem(segments) == SystemRun(says)
    decreases |says|
  {
    if says != [] {
      assert IsSystem(segments[0]) <==> BySystem(says[0]) by {
        assert Bears(env, blocks, ANTHROPIC, segments[0], says[0]);
      }
      LeadingIsRun(env, blocks, segments[1..], says[1..]);
    }
  }

  lemma {:induction false} LeadingHeard(env: RenderEnv, segments: seq<Segment>)
    requires forall k :: 0 <= k < |segments| ==> IsSystem(segments[k])
    ensures |AllHeard(env, segments)| == |segments|
    ensures forall k :: 0 <= k < |segments| ==>
              AllHeard(env, segments)[k] == ("system", Cell(SystemBlock(segments[k]), Plain))
    decreases |segments|
  {
    if segments != [] {
      LeadingHeard(env, segments[..|segments| - 1]);
    }
  }

  lemma {:induction false} SystemListGoes(env: RenderEnv, segments: seq<Segment>, stablePrefix: bool)
    requires forall k :: 0 <= k < |segments| ==> IsSystem(segments[k])
    ensures AllGo(AllHeard(env, segments), OfRole("system", SystemBlocks(segments, stablePrefix)))
  {
    LeadingHeard(env, segments);
  }

  lemma {:induction false} SegmentsOrdinary(env: RenderEnv, blocks: seq<Block>, segments: seq<Segment>, says: seq<Saying>)
    requires AllBear(env, blocks, ANTHROPIC, segments, says)
    ensures forall k :: 0 <= k < |segments| ==> Ordinary(segments[k])
  {
    forall k | 0 <= k < |segments| ensures Ordinary(segments[k]) {
      assert Bears(env, blocks, ANTHROPIC, segments[k], says[k]);
    }
  }

  lemma {:induction false} AllSaid(env: RenderEnv, blocks: seq<Block>, says: seq<Saying>, cells: seq<(string, Cell)>,
                                   listed: seq<(string, Json)>)
    requires AllTell(env, blocks, says, cells) && AllGo(cells, listed)
    ensures |listed| == |says| && forall k :: 0 <= k < |listed| ==> Said(env, blocks, says[k], listed[k].0, listed[k].1)
  {
    forall k | 0 <= k < |listed| ensures Said(env, blocks, says[k], listed[k].0, listed[k].1) {
      SaidAsSent(env, blocks, says[k], cells[k], listed[k]);
    }
  }

  /** What a conversation and the system list before it say together. */
  lemma {:induction false} WholeGoes(env: RenderEnv, segments: seq<Segment>, n: nat, tools: Tools, stablePrefix: bool,
                                     sent: seq<ToolHistory.WireMessage>)
    requires n == LeadingSystem(segments) && forall k :: 0 <= k < |segments| ==> Ordinary(segments[k])
    requires RenderAll(env, Body([], tools), segments[n..]).Ok?
    requires MessagesGo(RenderAll(env, Body([], tools), segments[n..]).value.messages, sent)
    ensures AllGo(AllHeard(env, segments),
                  OfRole("system", SystemBlocks(segments[..n], stablePrefix)) + Speech(Listed(sent)))
  {
    var body := RenderAll(env, Body([], tools), segments[n..]).value;
    SystemListGoes(env, segments[..n], stablePrefix);
    ConversationHeard(env, Body([], tools), segments[n..]);
    ConversationKindsShow(env, Body([], tools), segments[n..]);
    MessagesListed(body.messages, sent);
    SpeechGoes(Flat(body.messages), Listed(sent));
    NoneFirst(AllHeard(env, segments[n..]));
    GoJoin(AllHeard(env, segments[..n]), OfRole("system", SystemBlocks(segments[..n], stablePrefix)),
           AllHeard(env, segments[n..]), Speech(Listed(sent)));
    HeardJoin(env, segments[..n], segments[n..]);
    Halves(segments, n);
  }

  /** Whatever is rendered of a frame and sent, marked or not, says what the frame says. */
  lemma {:induction false} RequestConveys(env: RenderEnv, blocks: seq<Block>, inPlace: bool, tools: Tools,
                                          stablePrefix: bool, sent: seq<ToolHistory.WireMessage>)
    requires var body := AnthropicReplay.RenderedUpTo(env, inPlace, blocks, |blocks|, Body([], tools));
             body.Ok? && MessagesGo(body.value.messages, sent)
    ensures var segments := SegmentsOf(env, blocks, 0, |blocks|, ANTHROPIC, inPlace);
            Conveys(env, blocks, inPlace, SystemBlocks(segments[..LeadingSystem(segments)], stablePrefix), sent)
  {
    var segments := SegmentsOf(env, blocks, 0, |blocks|, ANTHROPIC, inPlace);
    var says, n := FrameSays(blocks, ANTHROPIC, inPlace), LeadingSystem(segments);
    SegmentsBear(env, blocks, |blocks|, ANTHROPIC, inPlace);
    LeadingIsRun(env, blocks, segments, says);
    SegmentsOrdinary(env, blocks, segments, says);
    assert AnthropicReplay.Conversation(segments, n) == segments[n..];
    WholeGoes(env, segments, n, tools, stablePrefix, sent);
    SegmentsTell(env, blocks, segments, says);
    AllSaid(env, blocks, Audible(env, says), AllHeard(env, segments),
            OfRole("system", SystemBlocks(segments[..n], stablePrefix)) + Speech(Listed(sent)));
  }
}
