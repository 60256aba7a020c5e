/**
 Whole requests: the history check, the tool plan, the walk, the renderer of each protocol, and
 the pairing check on what was rendered. A request that goes out is one the provider can read.
 */
module Requests {
  import opened Wrappers
  import opened Json
  import opened Model
  import opened Blocks
  import opened ToolSets
  import opened ToolPlan
  import opened ToolHistory
  import opened Segments
  import opened AnthropicWire
  import opened OfferedTools
  import AnthropicReadback
  import AnthropicReplay
  import ChatReadback
  import ChatReplay
  import ChatWire
  import ResponsesReadback
  import ResponsesReplay
  import ResponsesWire

  // -- tools ----------------------------------------------------------------------------------

  /** Which tool list goes with the request, and whether later changes show in place. */
  method PlanFor(blocks: seq<Block>, placement: Placement) returns (plan: Plan)
    ensures plan == PlanTools(blocks, placement)
  {
    var changes := ChangesOf(blocks);
    var current := FoldTools(blocks);
    if changes == [] || placement.FoldAll? {
      return Plan(current, false);
    }
    var declaration := ApplyTo(changes[0], []);
    var additive := ScanAdditions(declaration, changes[1..]);
    var expressible := if placement.AnthropicInPlace? then declaration != [] else additive;
    plan := if expressible then Plan(declaration, true) else Plan(current, false);
  }

  // -- Anthropic --------------------------------------------------------------------------------

  datatype AnthropicRequest = AnthropicRequest(system: seq<Json>, messages: seq<WireMessage>, tools: Tools)

  function AnthropicPlan(blocks: seq<Block>, native: bool): Plan {
    PlanTools(blocks, if native then AnthropicInPlace else FoldAll)
  }

  /** The conversation of a frame. */
  function AnthropicBody(env: RenderEnv, blocks: seq<Block>, native: bool): Result<Body, ErrorKind> {
    var plan := AnthropicPlan(blocks, native);
    AnthropicReplay.RenderedUpTo(env, plan.inPlace, blocks, |blocks|, Body([], plan.tools))
  }

  function AnthropicSystem(env: RenderEnv, blocks: seq<Block>, native: bool, stablePrefix: bool): seq<Json> {
    var segments := SegmentsOf(env, blocks, 0, |blocks|, ANTHROPIC, AnthropicPlan(blocks, native).inPlace);
    SystemBlocks(segments[..LeadingSystem(segments)], stablePrefix)
  }

  /** The messages as they are, or with the marker on the last block that may carry it. */
  ghost predicate MarkedOnce(ms: seq<Tagged>, stablePrefix: bool, sent: seq<WireMessage>) {
    || (sent == Untagged(ms) && (stablePrefix ==> NoPlainFrom(ms, 0)))
    || (stablePrefix && exists m: nat, i: nat :: IsAnchor(ms, m, i) && sent == Untagged(MarkAt(ms, m, i)))
  }

  predicate RolesDiffer(ms: seq<WireMessage>) {
    forall k :: 0 < k < |ms| ==> ms[k - 1].role != ms[k].role
  }

  /** A marker on one block leaves every block's type and ids alone. */
  lemma MarkKeepsBlock(block: Json)
    ensures IsResult(Marked(block)) == IsResult(block) && IsUse(Marked(block)) == IsUse(block)
    ensures TextIn(Marked(block), "id") == TextIn(block, "id")
    ensures TextIn(Marked(block), "tool_use_id") == TextIn(block, "tool_use_id")
  {
  }

  /** The two contents differ in nothing the pairing looks at. */
  predicate Alike(a: seq<Json>, b: seq<Json>) {
    && |a| == |b|
    && forall j :: 0 <= j < |a| ==>
         && IsResult(a[j]) == IsResult(b[j]) && IsUse(a[j]) == IsUse(b[j])
         && TextIn(a[j], "id") == TextIn(b[j], "id") && TextIn(a[j], "tool_use_id") == TextIn(b[j], "tool_use_id")
  }

  lemma {:induction false} AlikeResults(a: seq<Json>, b: seq<Json>)
    requires Alike(a, b)
    ensures LeadingResults(a) == LeadingResults(b)
    decreases |a|
  {
    if a != [] && IsResult(a[0]) {
      AlikeResults(a[1..], b[1..]);
    }
  }

  lemma AlikeUses(a: seq<Json>, b: seq<Json>)
    requires Alike(a, b)
    ensures UseIds(a) == UseIds(b)
  {
    forall id ensures id in UseIds(a) <==> id in UseIds(b) {
      if id in UseIds(a) {
        var i :| 0 <= i < |a| && IsUse(a[i]) && TextIn(a[i], "id") == id;
        assert IsUse(b[i]) && TextIn(b[i], "id") == id;
      }
      if id in UseIds(b) {
        var i :| 0 <= i < |b| && IsUse(b[i]) && TextIn(b[i], "id") == id;
        assert IsUse(a[i]) && TextIn(a[i], "id") == id;
      }
    }
  }

  lemma {:induction false} AlikeFits(m: WireMessage, n: WireMessage, owed: set<string>)
    requires m.role == n.role && Alike(m.content, n.content)
    ensures MessageFits(m, owed) <==> MessageFits(n, owed)
  {
    AlikeResults(m.content, n.content);
    var k := LeadingResults(m.content);
    assert ResultIds(m.content[..k]) == ResultIds(n.content[..k]);
    assert forall i :: 0 <= i < |m.content| ==> ToolHistory.Plain(m.content[i]) == ToolHistory.Plain(n.content[i]);
  }

  predicate AllAlike(ms: seq<WireMessage>, ns: seq<WireMessage>) {
    |ms| == |ns| && forall k :: 0 <= k < |ms| ==> ms[k].role == ns[k].role && Alike(ms[k].content, ns[k].content)
  }

  lemma AlikeOwed(ms: seq<WireMessage>, ns: seq<WireMessage>, k: nat)
    requires AllAlike(ms, ns) && k <= |ms|
    ensures Owed(ms, k) == Owed(ns, k)
  {
    if k > 0 {
      assert ms[k - 1].role == ns[k - 1].role && Alike(ms[k - 1].content, ns[k - 1].content);
      AlikeUses(ms[k - 1].content, ns[k - 1].content);
    }
  }

  lemma AlikePaired(ms: seq<WireMessage>, ns: seq<WireMessage>)
    requires AllAlike(ms, ns) && AnthropicPaired(ms)
    ensures AnthropicPaired(ns)
  {
    AlikeOwed(ms, ns, |ms|);
    forall k | 0 <= k < |ns| ensures MessageFits(ns[k], Owed(ns, k)) {
      assert MessageFits(ms[k], Owed(ms, k));
      AlikeOwed(ms, ns, k);
      AlikeFits(ms[k], ns[k], Owed(ms, k));
    }
  }

  lemma MarkedAlike(ms: seq<Tagged>, m: nat, i: nat)
    requires m < |ms| && i < |ms[m].cells|
    ensures AllAlike(Untagged(ms), Untagged(MarkAt(ms, m, i)))
  {
    MarkKeepsBlock(ms[m].cells[i].block);
  }

  /** What the marker does to the messages. */
  lemma UntaggedMark(ms: seq<Tagged>, m: nat, i: nat)
    requires m < |ms| && i < |ms[m].cells|
    ensures var sent := Untagged(ms);
            Untagged(MarkAt(ms, m, i)) ==
            sent[m := WireMessage(sent[m].role, sent[m].content[i := Marked(sent[m].content[i])])]
  {
    var cells := ms[m].cells;
    assert BlocksIn(cells[i := cells[i].(block := Marked(cells[i].block))]) == BlocksIn(cells)[i := Marked(cells[i].block)];
  }

  lemma {:induction false} RefusedAs(env: RenderEnv, b: Body, segments: seq<Segment>)
    ensures RenderAll(env, b, segments).Err? ==> RenderAll(env, b, segments) == Err(InvalidRequest)
    decreases |segments|
  {
    if segments != [] {
      RefusedAs(env, b, segments[..|segments| - 1]);
    }
  }

  lemma UnmarkedSends(ms: seq<Tagged>)
    requires Alternating(ms)
    ensures RolesDiffer(Untagged(ms))
  {
  }

  /** A marked conversation is as readable as the unmarked one. */
  lemma {:induction false} MarkedSends(ms: seq<Tagged>, m: nat, i: nat, sent: seq<WireMessage>)
    requires AnthropicPaired(Untagged(ms)) && Alternating(ms) && IsAnchor(ms, m, i)
    requires var plain := Untagged(ms);
             sent == plain[m := WireMessage(plain[m].role, plain[m].content[i := Marked(plain[m].content[i])])]
    ensures AnthropicPaired(sent) && RolesDiffer(sent) && MarkedOnce(ms, true, sent)
  {
    UntaggedMark(ms, m, i);
    MarkedAlike(ms, m, i);
    AlikePaired(Untagged(ms), sent);
    UnmarkedSends(ms);
    assert forall k :: 0 <= k < |sent| ==> sent[k].role == Untagged(ms)[k].role;
  }

  lemma MarkedOnceGoes(ms: seq<Tagged>, stablePrefix: bool, sent: seq<WireMessage>)
    requires MarkedOnce(ms, stablePrefix, sent)
    ensures AnthropicReadback.MessagesGo(ms, sent)
  {
    if sent == Untagged(ms) {
      AnthropicReadback.UnmarkedGo(ms);
    } else {
      var m: nat, i: nat :| IsAnchor(ms, m, i) && sent == Untagged(MarkAt(ms, m, i));
      AnthropicReadback.MarkedGo(ms, m, i);
    }
  }

  /** Block for block, the request says what the frame says. */
  ghost predicate AnthropicSaysFrame(env: RenderEnv, blocks: seq<Block>, native: bool, request: AnthropicRequest) {
    AnthropicReadback.Conveys(env, blocks, AnthropicPlan(blocks, native).inPlace, request.system, request.messages)
  }

  /** What is sent of a frame says what the frame says. */
  lemma {:induction false} SentConveys(env: RenderEnv, blocks: seq<Block>, native: bool, stablePrefix: bool,
                                       request: AnthropicRequest)
    requires var body := AnthropicBody(env, blocks, native);
             body.Ok? && MarkedOnce(body.value.messages, stablePrefix, request.messages)
    requires request.system == AnthropicSystem(env, blocks, native, stablePrefix)
    ensures AnthropicSaysFrame(env, blocks, native, request)
  {
    var plan := AnthropicPlan(blocks, native);
    MarkedOnceGoes(AnthropicBody(env, blocks, native).value.messages, stablePrefix, request.messages);
    AnthropicReadback.RequestConveys(env, blocks, plan.inPlace, plan.tools, stablePrefix, request.messages);
  }

  /** The conversation as it goes out. */
  method Send(messages: Messages, stablePrefix: bool) returns (sent: seq<WireMessage>)
    requires messages.Valid() && AnthropicPaired(Untagged(messages.tagged)) && Alternating(messages.tagged)
    ensures |sent| == |messages.tagged| && MarkedOnce(messages.tagged, stablePrefix, sent)
    ensures AnthropicPaired(sent) && RolesDiffer(sent)
  {
    sent := messages.messages;
    UnmarkedSends(messages.tagged);
    if !stablePrefix {
      return;
    }
    var at := messages.Anchor();
    if at.Some? {
      var (m, i) := at.value;
      sent := sent[m := WireMessage(sent[m].role, sent[m].content[i := Marked(sent[m].content[i])])];
      MarkedSends(messages.tagged, m, i, sent);
    }
  }

  /**
   An Anthropic request goes out exactly when the frame is sendable, the walk placed every tool
   change, and something was rendered whose tool uses and results pair up; then roles alternate,
   a stable prefix marks at most one block, after which no other could carry the marker, and what
   is sent says what the frame says.
   */
  method RenderAnthropic(env: RenderEnv, blocks: seq<Block>, native: bool, stablePrefix: bool)
    returns (result: Result<AnthropicRequest, ErrorKind>)
    ensures var body := AnthropicBody(env, blocks, native);
            result.Ok? <==> Sendable(env.names, blocks) && body.Ok? && body.value.messages != []
                            && AnthropicPaired(Untagged(body.value.messages))
    ensures result.Err? ==> result.error == InvalidRequest
    ensures result.Ok? ==> var ms := AnthropicBody(env, blocks, native).value.messages;
                           && MarkedOnce(ms, stablePrefix, result.value.messages) && result.value.messages != []
                           && AnthropicPaired(result.value.messages) && RolesDiffer(result.value.messages)
                           && result.value.system == AnthropicSystem(env, blocks, native, stablePrefix)
                           && result.value.tools == AnthropicPlan(blocks, native).tools
    ensures result.Ok? ==> AnthropicSaysFrame(env, blocks, native, result.value)
  {
    var sendable := ValidateFrame(env.names, blocks);
    if !sendable {
      return Err(InvalidRequest);
    }
    var plan := PlanFor(blocks, if native then AnthropicInPlace else FoldAll);
    var segments := Normalize(env, blocks, ANTHROPIC, plan.inPlace);
    var leading := LeadingSystem(segments);
    var conversation := AnthropicReplay.Conversation(segments, leading);
    var messages := new Messages();
    RefusedAs(env, Body([], plan.tools), conversation);
    RolesAlternate(env, Body([], plan.tools), conversation);
    var failed := messages.RenderConversation(env, conversation, plan.tools);
    if failed.Some? {
      return Err(InvalidRequest);
    }
    var paired := ValidateAnthropic(messages.messages);
    if !paired || messages.messages == [] {
      return Err(InvalidRequest);
    }
    var sent := Send(messages, stablePrefix);
    var request := AnthropicRequest(SystemBlocks(segments[..leading], stablePrefix), sent, plan.tools);
    SentConveys(env, blocks, native, stablePrefix, request);
    result := Ok(request);
  }

  /** A committed answer is in the request's conversation, whole and in order, after what preceded it. */
  lemma {:induction false} AnswerIsSentBack(env: RenderEnv, blocks: seq<Block>, native: bool, at: nat,
                                            content: seq<Json>, answer: seq<Block>)
    requires EmptyIsBlank(env) && AnthropicReplay.CommittedAs(env, content, answer) && StandsAt(blocks, at, answer)
    requires AnthropicBody(env, blocks, native).Ok?
    ensures var plan := AnthropicPlan(blocks, native);
            var before := AnthropicReplay.RenderedUpTo(env, plan.inPlace, blocks, at, Body([], plan.tools));
            before.Ok? && Flat(before.value.messages) + AnthropicReplay.Replayed(env, content)
                          <= Flat(AnthropicBody(env, blocks, native).value.messages)
  {
    var plan := AnthropicPlan(blocks, native);
    AnthropicReplay.ContentReplays(env, plan.inPlace, blocks, at, at + |answer|, content, answer, Body([], plan.tools));
  }

  /**
   Whoever reads the request's tool list and then the tool changes among its messages, in order,
   is offered the frame's current tools, name by name.
   */
  lemma {:induction false} AnthropicOffersCurrent(env: RenderEnv, blocks: seq<Block>, native: bool, name: string)
    requires AnthropicBody(env, blocks, native).Ok?
    ensures var plan, messages := AnthropicPlan(blocks, native), AnthropicBody(env, blocks, native).value.messages;
            OfferedAfter(ChangesAmong(Flat(messages)), Find(plan.tools, name), name) == Find(CurrentTools(blocks), name)
  {
    var placement := if native then AnthropicInPlace else FoldAll;
    var plan := AnthropicPlan(blocks, native);
    var segments := SegmentsOf(env, blocks, 0, |blocks|, ANTHROPIC, plan.inPlace);
    FrameShows(env, blocks, |blocks|, ANTHROPIC, plan.inPlace);
    assert blocks[..|blocks|] == blocks;
    LeadingShowsNone(segments);
    var conversation := AnthropicReplay.Conversation(segments, LeadingSystem(segments));
    assert conversation == segments[LeadingSystem(segments)..];
    ConversationTells(env, plan.tools, conversation);
    OfferedIsRead(InPlaceBlocks(InPlace(ChangesOf(blocks), plan.inPlace), plan.tools), Find(plan.tools, name), name);
    PlanMeansCurrent(blocks, placement, name);
  }

  // -- Chat -------------------------------------------------------------------------------------

  function ChatMessages(env: RenderEnv, o: ChatWire.Options, blocks: seq<Block>): seq<Json> {
    ChatWire.Finished(ChatWire.Walk(env, o, ChatWire.Start, SegmentsOf(env, blocks, 0, |blocks|, CHAT, false)))
  }

  /** Message for message, apart from the assistant's own, the request says what the frame says. */
  ghost predicate ChatSaysFrame(env: RenderEnv, blocks: seq<Block>, messages: seq<Json>) {
    ChatReadback.Conveys(env, blocks, messages)
  }

  /**
   A Chat request goes out exactly when its calls are answered right after the message that makes
   them, and it says what the frame says.
   */
  method RenderChat(env: RenderEnv, o: ChatWire.Options, blocks: seq<Block>) returns (result: Result<(seq<Json>, Tools),
                    ErrorKind>)
    ensures var ms := ChatMessages(env, o, blocks);
            result == if Sendable(env.names, blocks) && ChatPaired(ms) && ms != [] then Ok((ms, CurrentTools(blocks)))
                      else Err(InvalidRequest)
    ensures result.Ok? ==> ChatSaysFrame(env, blocks, result.value.0)
  {
    var sendable := ValidateFrame(env.names, blocks);
    if !sendable {
      return Err(InvalidRequest);
    }
    var plan := PlanFor(blocks, FoldAll);
    var segments := Normalize(env, blocks, CHAT, plan.inPlace);
    var messages := ChatWire.RenderChat(env, o, segments);
    var paired := ValidateChat(messages);
    if !paired || messages == [] {
      return Err(InvalidRequest);
    }
    ChatReadback.MessagesConvey(env, o, blocks);
    result := Ok((messages, plan.tools));
  }

  /** A committed answer between others' segments is one message of the request, or none if it shows nothing. */
  lemma ChatAnswerIsSentBack(env: RenderEnv, blocks: seq<Block>, at: nat, end: nat, output: ModelOutput, answer: seq<Block>)
    requires ChatReplay.ChatItems(output.items) && ChatReplay.CommittedAs(env, output, answer)
    requires StandsAt(blocks, at, answer) && end == at + |answer| && ChatReplay.AnyShows(env, output.items)
    requires ChatReplay.WalkTo(env, blocks, at).run.None?
    requires var last := SegmentsOf(env, blocks, end, |blocks|, CHAT, false); last == [] || ChatReplay.Closes(last[0])
    ensures var before := ChatReplay.WalkTo(env, blocks, at);
            before.messages + before.hoisted + ChatReplay.Sent(env, output.items) <= ChatMessages(env, ChatReplay.REPLAY, blocks)
  {
    ChatReplay.MessageReplays(env, blocks, at, end, output, answer);
  }

  // -- Responses ----------------------------------------------------------------------------------

  function ResponsesPlan(blocks: seq<Block>, additional: bool): Plan {
    PlanTools(blocks, if additional then ResponsesAdditive else FoldAll)
  }

  function ResponsesInput(env: RenderEnv, blocks: seq<Block>, additional: bool): ResponsesWire.Input {
    var segments := SegmentsOf(env, blocks, 0, |blocks|, RESPONSES, ResponsesPlan(blocks, additional).inPlace);
    ResponsesWire.Walk(env, ResponsesWire.Start, segments, LeadingSystem(segments))
  }

  /** A committed output's items are in the request, in order, right after what preceded them. */
  lemma {:induction false} ResponsesAnswerIsSentBack(env: RenderEnv, blocks: seq<Block>, additional: bool, at: nat,
                                                     output: seq<Json>,
                                                     limited: bool, answer: seq<Block>)
    requires ResponsesReplay.CommittedAs(env, output, limited, answer) && StandsAt(blocks, at, answer)
    ensures var before := ResponsesReplay.RenderedUpTo(env, blocks, at, ResponsesPlan(blocks, additional).inPlace);
            before.items + ResponsesReplay.SentBack(env.codec, output, limited) <= ResponsesInput(env, blocks, additional).items
  {
    ResponsesReplay.OutputReplays(env, blocks, at, at + |answer|, ResponsesPlan(blocks, additional).inPlace, output, limited, answer);
  }

  /** The request's items, marked by whether a tool change adds them. */
  function ResponsesCells(env: RenderEnv, blocks: seq<Block>, additional: bool): seq<Cell> {
    var segments := SegmentsOf(env, blocks, 0, |blocks|, RESPONSES, ResponsesPlan(blocks, additional).inPlace);
    ItemCells(env, ResponsesWire.Start, segments, LeadingSystem(segments))
  }

  /** The request's tool list and the tools its changes list, one after the other, are the current tools. */
  lemma {:induction false} ResponsesOffersCurrent(env: RenderEnv, blocks: seq<Block>, additional: bool)
    ensures ResponsesInput(env, blocks, additional).items == BlocksIn(ResponsesCells(env, blocks, additional))
    ensures ToolJsons(ResponsesPlan(blocks, additional).tools) + Listed(ResponsesCells(env, blocks, additional)) ==
            ToolJsons(CurrentTools(blocks))
  {
    var placement := if additional then ResponsesAdditive else FoldAll;
    var plan := ResponsesPlan(blocks, additional);
    var segments := SegmentsOf(env, blocks, 0, |blocks|, RESPONSES, plan.inPlace);
    CellsAreItems(env, ResponsesWire.Start, segments, LeadingSystem(segments));
    FrameShows(env, blocks, |blocks|, RESPONSES, plan.inPlace);
    assert blocks[..|blocks|] == blocks;
    WalkLists(env, ResponsesWire.Start, segments, LeadingSystem(segments));
    var added := AddedIn(InPlace(ChangesOf(blocks), plan.inPlace));
    PlanMeansCurrent(blocks, placement, "");
    assert plan.tools + added == CurrentTools(blocks);
    ToolJsonsJoin(plan.tools, added);
  }

  /** The instructions and then item for item, the request says what the frame says. */
  ghost predicate ResponsesSaysFrame(env: RenderEnv, blocks: seq<Block>, additional: bool, input: ResponsesWire.Input) {
    ResponsesReadback.Conveys(env, blocks, ResponsesPlan(blocks, additional).inPlace, input)
  }

  /** A Responses request goes out exactly when the frame is sendable and comes to some item; it says what the frame says. */
  method RenderResponses(env: RenderEnv, blocks: seq<Block>, additional: bool)
    returns (result: Result<(ResponsesWire.Input, Tools), ErrorKind>)
    ensures var input := ResponsesInput(env, blocks, additional);
            result == if Sendable(env.names, blocks) && input.items != [] then Ok((input, ResponsesPlan(blocks, additional).tools))
                      else Err(InvalidRequest)
    ensures result.Ok? ==> ResponsesSaysFrame(env, blocks, additional, result.value.0)
  {
    var sendable := ValidateFrame(env.names, blocks);
    if !sendable {
      return Err(InvalidRequest);
    }
    var plan := PlanFor(blocks, if additional then ResponsesAdditive else FoldAll);
    var segments := Normalize(env, blocks, RESPONSES, plan.inPlace);
    var input := ResponsesWire.RenderInput(env, segments);
    if input.items == [] {
      return Err(InvalidRequest);
    }
    ResponsesReadback.InputConveys(env, blocks, plan.inPlace);
    result := Ok((input, plan.tools));
  }
}
