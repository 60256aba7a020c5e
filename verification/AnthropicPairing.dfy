/** The pairing check on Anthropic messages as a run goes on: what an answer must show for it to keep passing. */
module AnthropicPairing {
  import opened Wrappers
  import opened Sequences
  import opened Json
  import opened Model
  import opened Blocks
  import opened ToolSets
  import opened ToolPlan
  import opened ToolHistory
  import ToolBatches
  import opened FrameGrowth
  import opened Segments
  import opened AnthropicWire
  import opened AnthropicReplay
  import opened RoundSegments
  import opened Requests

  // -- pairing at the end of a list ------------------------------------------------------------------

  predicate NoResults(content: seq<Json>) {
    forall i :: 0 <= i < |content| ==> !IsResult(content[i])
  }

  predicate OnlyResults(content: seq<Json>) {
    forall i :: 0 <= i < |content| ==> IsResult(content[i])
  }

  lemma {:induction false} FitSnoc(ms: seq<WireMessage>, m: WireMessage)
    ensures FitUpTo(ms + [m], |ms| + 1) <==> FitUpTo(ms, |ms|) && MessageFits(m, Owed(ms, |ms|))
    ensures Owed(ms + [m], |ms| + 1) == OwedAfter(m)
  {
    var all := ms + [m];
    assert all[|ms|] == m;
    forall k | 0 <= k <= |ms| ensures Owed(all, k) == Owed(ms, k) {
      assert k > 0 ==> all[k - 1] == ms[k - 1];
    }
    forall k | 0 <= k < |ms| ensures MessageFits(all[k], Owed(all, k)) <==> MessageFits(ms[k], Owed(ms, k)) {
      assert all[k] == ms[k];
    }
    if FitUpTo(all, |ms| + 1) {
      forall k | 0 <= k < |ms| ensures MessageFits(ms[k], Owed(ms, k)) {
        assert MessageFits(all[k], Owed(all, k));
      }
    }
  }

  /** A list pairs up when what came before its last message fits, and that one fits and owes nothing. */
  lemma {:induction false} PairedSnoc(ms: seq<WireMessage>, m: WireMessage)
    ensures AnthropicPaired(ms + [m]) <==> FitUpTo(ms, |ms|) && MessageFits(m, Owed(ms, |ms|)) && OwedAfter(m) == {}
  {
    FitSnoc(ms, m);
    assert |ms + [m]| == |ms| + 1;
  }

  lemma {:induction false} AllLeading(content: seq<Json>)
    requires OnlyResults(content)
    ensures LeadingResults(content) == |content|
    decreases |content|
  {
    if content != [] {
      AllLeading(content[1..]);
    }
  }

  lemma ExactlyBoth(ids: seq<string>, a: set<string>, b: set<string>)
    requires Exactly(ids, a) && Exactly(ids, b)
    ensures a == b
  {
  }

  lemma UsesJoin(a: seq<Json>, b: seq<Json>)
    ensures UseIds(a + b) == UseIds(a) + UseIds(b)
    ensures NoResults(a + b) <==> NoResults(a) && NoResults(b)
  {
    var all := a + b;
    assert forall i :: 0 <= i < |a| ==> all[i] == a[i];
    assert forall i :: 0 <= i < |b| ==> all[|a| + i] == b[i];
    forall id ensures id in UseIds(all) <==> id in UseIds(a) + UseIds(b) {
      if id in UseIds(a) {
        var i :| 0 <= i < |a| && IsUse(a[i]) && TextIn(a[i], "id") == id;
        assert all[i] == a[i];
      }
      if id in UseIds(b) {
        var i :| 0 <= i < |b| && IsUse(b[i]) && TextIn(b[i], "id") == id;
        assert all[|a| + i] == b[i];
      }
    }
  }

  /** The answer's calls show as tool uses, and nothing else in it is a use or a result. */
  predicate ShowsCalls(content: seq<Json>, asked: set<string>) {
    NoResults(content) && UseIds(content) == asked
  }

  /** Two messages more: the assistant's, and the results of its calls. */
  lemma {:induction false} GroupPairs(ms: seq<WireMessage>, said: seq<Json>, results: seq<Json>, asked: set<string>)
    requires FitUpTo(ms, |ms|) && Owed(ms, |ms|) == {}
    requires OnlyResults(results) && Exactly(ResultIds(results), asked)
    ensures AnthropicPaired(ms + [WireMessage("assistant", said)] + [WireMessage("user", results)]) <==>
            ShowsCalls(said, asked)
  {
    var assistant, user := WireMessage("assistant", said), WireMessage("user", results);
    FitSnoc(ms, assistant);
    PairedSnoc(ms + [assistant], user);
    AllLeading(results);
    assert results[..|results|] == results;
    assert |ms + [assistant]| == |ms| + 1;
    if Exactly(ResultIds(results), UseIds(said)) {
      ExactlyBoth(ResultIds(results), UseIds(said), asked);
    }
  }

  // -- placing blocks -----------------------------------------------------------------------------------

  /** One more block for the message that takes them. */
  lemma PlaceLast(base: seq<Tagged>, role: string, held: seq<Cell>, cell: Cell)
    ensures Place(base + [Tagged(role, held)], role, cell) == base + [Tagged(role, held + [cell])]
  {
    var now := base + [Tagged(role, held)];
    assert now[..|now| - 1] == base && now[|now| - 1] == Tagged(role, held);
  }

  /** Blocks of one role go into one message, on `base` and after what it holds already. */
  lemma {:induction false} PlaceAllInto(ms: seq<Tagged>, base: seq<Tagged>, role: string, held: seq<Cell>, cells: seq<Cell>)
    requires cells != []
    requires if ms != [] && ms[|ms| - 1].role == role then ms == base + [Tagged(role, held)] else ms == base && held == []
    ensures PlaceAll(ms, role, cells) == base + [Tagged(role, held + cells)]
    decreases |cells|
  {
    var early, last := cells[..|cells| - 1], cells[|cells| - 1];
    SplitLast(cells);
    Associate(held, early, [last]);
    if early == [] {
      assert PlaceAll(ms, role, cells) == Place(ms, role, last) && held + cells == held + [last];
      if ms != [] && ms[|ms| - 1].role == role {
        PlaceLast(base, role, held, last);
      }
    } else {
      PlaceAllInto(ms, base, role, held, early);
      PlaceLast(base, role, held + early, last);
    }
  }

  lemma {:induction false} PlaceAllForm(ms: seq<Tagged>, role: string, cells: seq<Cell>)
    requires cells != []
    ensures PlaceAll(ms, role, cells) ==
            if ms != [] && ms[|ms| - 1].role == role then ms[..|ms| - 1] + [Tagged(role, ms[|ms| - 1].cells + cells)]
            else ms + [Tagged(role, cells)]
  {
    if ms != [] && ms[|ms| - 1].role == role {
      SplitLast(ms);
      PlaceAllInto(ms, ms[..|ms| - 1], role, ms[|ms| - 1].cells, cells);
    } else {
      PlaceAllInto(ms, ms, role, [], cells);
      NoneFirst(cells);
    }
  }

  lemma {:induction false} PlaceAllJoins(ms: seq<Tagged>, role: string, a: seq<Cell>, b: seq<Cell>)
    ensures PlaceAll(ms, role, a + b) == PlaceAll(PlaceAll(ms, role, a), role, b)
    decreases |b|
  {
    if b == [] {
      NoneLast(a);
    } else {
      var early, last := b[..|b| - 1], b[|b| - 1];
      SplitLast(b);
      Associate(a, early, [last]);
      PlaceAllJoins(ms, role, a, early);
      assert (a + b)[..|a + b| - 1] == a + early && (a + b)[|a + b| - 1] == last;
    }
  }

  /** All segments of a stretch stand for blocks of one role, and none is a tool change. */
  predicate OneRole(env: RenderEnv, segments: seq<Segment>, role: string) {
    forall k :: 0 <= k < |segments| ==> !segments[k].ChangeSegment? && CellsOf(env, [], segments[k]).0 == role
  }

  function Cells(env: RenderEnv, segments: seq<Segment>): seq<Cell> {
    if segments == [] then []
    else Cells(env, segments[..|segments| - 1]) + CellsOf(env, [], segments[|segments| - 1]).1
  }

  lemma OfferedUnused(env: RenderEnv, offered: Tools, s: Segment)
    requires !s.ChangeSegment?
    ensures CellsOf(env, offered, s) == CellsOf(env, [], s)
  {
  }

  lemma {:induction false} RoleRenders(env: RenderEnv, b: Body, segments: seq<Segment>, role: string)
    requires OneRole(env, segments, role)
    ensures RenderAll(env, b, segments) == Ok(Body(PlaceAll(b.messages, role, Cells(env, segments)), b.offered))
    decreases |segments|
  {
    if segments != [] {
      var past, last := segments[..|segments| - 1], segments[|segments| - 1];
      RoleRenders(env, b, past, role);
      OfferedUnused(env, b.offered, last);
      PlaceAllJoins(b.messages, role, Cells(env, past), CellsOf(env, [], last).1);
    }
  }

  lemma BlocksJoin(a: seq<Cell>, b: seq<Cell>)
    ensures BlocksIn(a + b) == BlocksIn(a) + BlocksIn(b)
  {
  }

  lemma UntaggedJoin(a: seq<Tagged>, b: seq<Tagged>)
    ensures Untagged(a + b) == Untagged(a) + Untagged(b)
  {
  }

  lemma UntaggedOne(t: Tagged)
    ensures Untagged([t]) == [WireMessage(t.role, BlocksIn(t.cells))]
  {
  }

  /** Where an answer and the results of its calls go. */
  lemma {:induction false} AnswerPlaced(ms: seq<Tagged>, said: seq<Cell>,
                                        results: seq<Cell>)
    returns (base: seq<Tagged>, held: seq<Cell>)
    requires said != [] && results != []
    ensures ms == base + [Tagged("assistant", held)] || (ms == base && held == [])
    ensures PlaceAll(PlaceAll(ms, "assistant", said), "user", results) ==
            base + [Tagged("assistant", held + said)] + [Tagged("user", results)]
  {
    PlaceAllForm(ms, "assistant", said);
    if ms != [] && ms[|ms| - 1].role == "assistant" {
      SplitLast(ms);
      base, held := ms[..|ms| - 1], ms[|ms| - 1].cells;
    } else {
      base, held := ms, [];
      NoneFirst(said);
    }
    var now := base + [Tagged("assistant", held + said)];
    assert now[|now| - 1] == Tagged("assistant", held + said);
    PlaceAllForm(now, "user", results);
  }

  /** The conversation with an answer and the results of its calls after it. */
  lemma {:induction false} AnswerPairs(ms: seq<Tagged>, said: seq<Cell>, results: seq<Cell>, asked: set<string>)
    requires AnthropicPaired(Untagged(ms)) && said != [] && results != []
    requires OnlyResults(BlocksIn(results)) && Exactly(ResultIds(BlocksIn(results)), asked)
    ensures var after := PlaceAll(PlaceAll(ms, "assistant", said), "user", results);
            && (AnthropicPaired(Untagged(after)) <==> ShowsCalls(BlocksIn(said), asked))
            && after != [] && after[|after| - 1].role == "user"
  {
    var base, held := AnswerPlaced(ms, said, results);
    BaseFits(ms, base, held);
    var whole := held + said;
    UntaggedJoin(base + [Tagged("assistant", whole)], [Tagged("user", results)]);
    UntaggedJoin(base, [Tagged("assistant", whole)]);
    UntaggedOne(Tagged("user", results));
    UntaggedOne(Tagged("assistant", whole));
    SaidPairs(base, held, said, results, asked);
  }

  lemma {:induction false} SaidPairs(base: seq<Tagged>, held: seq<Cell>, said: seq<Cell>, results: seq<Cell>,
                                     asked: set<string>)
    requires FitUpTo(Untagged(base), |base|) && Owed(Untagged(base), |base|) == {}
    requires NoResults(BlocksIn(held)) && UseIds(BlocksIn(held)) == {}
    requires OnlyResults(BlocksIn(results)) && Exactly(ResultIds(BlocksIn(results)), asked)
    ensures AnthropicPaired(Untagged(base) + [WireMessage("assistant", BlocksIn(held + said))] + [WireMessage("user", BlocksIn(results))])
            <==> ShowsCalls(BlocksIn(said), asked)
  {
    BlocksJoin(held, said);
    UsesJoin(BlocksIn(held), BlocksIn(said));
    GroupPairs(Untagged(base), BlocksIn(held + said), BlocksIn(results), asked);
  }

  /** Before the message the answer goes into, everything fits and nothing is owed; in it, nothing is asked. */
  lemma {:induction false} BaseFits(ms: seq<Tagged>, base: seq<Tagged>, held: seq<Cell>)
    requires AnthropicPaired(Untagged(ms))
    requires ms == base + [Tagged("assistant", held)] || (ms == base && held == [])
    ensures FitUpTo(Untagged(base), |base|) && Owed(Untagged(base), |base|) == {}
    ensures NoResults(BlocksIn(held)) && UseIds(BlocksIn(held)) == {}
  {
    if ms == base + [Tagged("assistant", held)] {
      UntaggedJoin(base, [Tagged("assistant", held)]);
      UntaggedOne(Tagged("assistant", held));
      PairedSnoc(Untagged(base), WireMessage("assistant", BlocksIn(held)));
    }
  }

  // -- a round --------------------------------------------------------------------------------------------

  lemma {:induction false} AnswerCells(env: RenderEnv, segments: seq<Segment>)
    requires AllOfAssistant(segments)
    ensures OneRole(env, segments, "assistant")
    ensures Called(segments) != {} ==> Cells(env, segments) != []
    decreases |segments|
  {
    if segments != [] {
      var past, last := segments[..|segments| - 1], segments[|segments| - 1];
      SplitLast(segments);
      AnswerCells(env, past);
      CalledJoins(past, [last]);
    }
  }

  lemma ResultShown(wireId: string, status: Status, content: Json)
    ensures IsResult(ToolResultJson(wireId, status, content))
            && TextIn(ToolResultJson(wireId, status, content), "tool_use_id") == wireId
  {
  }

  predicate OfResults(segments: seq<Segment>) {
    forall k :: 0 <= k < |segments| ==> segments[k].ResultSegment?
  }

  /** One block for each result, under its wire id. */
  lemma {:induction false} ResultCells(env: RenderEnv, segments: seq<Segment>)
    requires OfResults(segments)
    ensures OneRole(env, segments, "user") && |Cells(env, segments)| == |segments|
    ensures OnlyResults(BlocksIn(Cells(env, segments)))
    ensures forall k :: 0 <= k < |segments| ==> ResultIds(BlocksIn(Cells(env, segments)))[k] == segments[k].wireId
    decreases |segments|
  {
    if segments != [] {
      var past, last := segments[..|segments| - 1], segments[|segments| - 1];
      ResultCells(env, past);
      BlocksJoin(Cells(env, past), CellsOf(env, [], last).1);
      ResultShown(last.wireId, last.status, ResultContent(last.content, last.notes, last.attachments));
    }
  }

  lemma {:induction false} ResultWires(env: RenderEnv, all: seq<Block>, results: seq<ToolBatches.Recorded>)
    ensures var segments := ResultSegments(env, all, results);
            && OfResults(segments) && OneRole(env, segments, "user") && OnlyResults(BlocksIn(Cells(env, segments)))
            && ResultIds(BlocksIn(Cells(env, segments))) == WiresOf(env, all, results)
            && |Cells(env, segments)| == |results|
  {
    ResultCells(env, ResultSegments(env, all, results));
  }

  // -- the leading system run and the plan -----------------------------------------------------------------

  predicate StartsOther(segments: seq<Segment>) {
    segments == [] || !IsSystem(segments[0])
  }

  lemma {:induction false} LeadingStays(first: seq<Segment>, more: seq<Segment>)
    requires StartsOther(more)
    ensures LeadingSystem(first + more) == LeadingSystem(first)
    decreases |first|
  {
    if first == [] {
      NoneFirst(more);
    } else {
      assert (first + more)[0] == first[0] && (first + more)[1..] == first[1..] + more;
      LeadingStays(first[1..], more);
    }
  }

  function Told(segments: seq<Segment>): seq<Segment> {
    Conversation(segments, LeadingSystem(segments))
  }

  /** What follows is added to the conversation. */
  lemma {:induction false} ToldMore(first: seq<Segment>, more: seq<Segment>)
    requires StartsOther(more)
    ensures Told(first + more) == Told(first) + more
  {
    LeadingStays(first, more);
    var n := LeadingSystem(first);
    assert (first + more)[n..] == first[n..] + more;
    NoneFirst(more);
  }

  lemma {:induction false} ChangesStay(blocks: seq<Block>, added: seq<Block>)
    requires forall i :: 0 <= i < |added| ==> !added[i].content.ToolsChanged?
    ensures ChangesOf(blocks + added) == ChangesOf(blocks)
    decreases |added|
  {
    if added == [] {
      NoneLast(blocks);
    } else {
      var early, last := added[..|added| - 1], added[|added| - 1];
      SplitLast(added);
      ChangesStay(blocks, early);
      Associate(blocks, early, [last]);
      PastOf(blocks + early, last);
    }
  }

  lemma {:induction false} PlanStays(frame: seq<Block>, declared: seq<Block>, results: seq<ToolBatches.Recorded>,
                                     native: bool)
    requires forall i :: 0 <= i < |declared| ==> !declared[i].content.ToolsChanged?
    ensures AnthropicPlan(RoundFrame(frame, declared, results), native) == AnthropicPlan(frame, native)
  {
    ChangesStay(frame, declared);
    ChangesStay(frame + declared, OutcomeBlocks(results));
  }

  lemma BodyIs(env: RenderEnv, frame: seq<Block>, native: bool)
    ensures var plan := AnthropicPlan(frame, native);
            AnthropicBody(env, frame, native) ==
            RenderAll(env, Body([], plan.tools), Told(SegmentsOf(env, frame, 0, |frame|, ANTHROPIC, plan.inPlace)))
  {
  }

  /** The frame's conversation renders, and passes the check. */
  predicate BodyPaired(env: RenderEnv, frame: seq<Block>, native: bool) {
    Pairs(AnthropicBody(env, frame, native))
  }

  predicate EndsWithUser(env: RenderEnv, frame: seq<Block>, native: bool) {
    UserLast(AnthropicBody(env, frame, native))
  }

  predicate Pairs(body: Result<Body, ErrorKind>) {
    body.Ok? && AnthropicPaired(Untagged(body.value.messages))
  }

  predicate UserLast(body: Result<Body, ErrorKind>) {
    body.Ok? && body.value.messages != [] && body.value.messages[|body.value.messages| - 1].role == "user"
  }

  lemma {:induction false} RoundRenders(env: RenderEnv, start: Body, first: seq<Segment>, answer: seq<Segment>,
                                        results: seq<Segment>)
    requires RenderAll(env, start, Told(first)).Ok? && StartsOther(answer) && answer != []
    requires OneRole(env, answer, "assistant") && OneRole(env, results, "user")
    ensures var b := RenderAll(env, start, Told(first)).value;
            RenderAll(env, start, Told(first + answer + results)) ==
            Ok(Body(PlaceAll(PlaceAll(b.messages, "assistant", Cells(env, answer)), "user", Cells(env, results)), b.offered))
  {
    Associate(first, answer, results);
    assert (answer + results)[0] == answer[0];
    ToldMore(first, answer + results);
    var b := RenderAll(env, start, Told(first)).value;
    RenderJoins(env, start, Told(first), answer + results);
    RenderJoins(env, b, answer, results);
    RoleRenders(env, b, answer, "assistant");
    RoleRenders(env, RenderAll(env, b, answer).value, results, "user");
  }

  function SaidCells(env: RenderEnv, frame: seq<Block>, declared: seq<Block>, native: bool): seq<Cell> {
    Cells(env, AnswerPart(env, frame, declared, ANTHROPIC, AnthropicPlan(frame, native).inPlace))
  }

  function AnswerBlocks(env: RenderEnv, frame: seq<Block>, declared: seq<Block>, native: bool): seq<Json> {
    BlocksIn(SaidCells(env, frame, declared, native))
  }

  /** The blocks of a round: the answer's, and one for each result under its call's wire id. */
  lemma {:induction false} RoundCells(env: RenderEnv, frame: seq<Block>, declared: seq<Block>,
                                      results: seq<ToolBatches.Recorded>,
                                      native: bool)
    requires WholeRound(env.names, frame, declared, results) && CallsSome(declared)
    ensures var said, shown := SaidCells(env, frame, declared, native),
                               Cells(env, ResultSegments(env, RoundFrame(frame, declared, results), results));
            && said != [] && shown != [] && OnlyResults(BlocksIn(shown))
            && Exactly(ResultIds(BlocksIn(shown)), DeclaredWires(env.names, declared))
  {
    var all, inPlace := RoundFrame(frame, declared, results), AnthropicPlan(frame, native).inPlace;
    RoundAdds(env, frame, declared, results, ANTHROPIC, inPlace);
    SomeAnswered(env.names, declared, results);
    ResultWires(env, all, results);
    AnswerCells(env, AnswerPart(env, frame, declared, ANTHROPIC, inPlace));
  }

  lemma {:induction false} AnswerBegins(answer: seq<Segment>)
    requires AllOfAssistant(answer) && Called(answer) != {}
    ensures answer != [] && StartsOther(answer)
  {
    var id :| id in Called(answer);
    var k :| 0 <= k < |answer| && answer[k].CallSegment? && answer[k].wireId == id;
    assert OfAssistant(answer[0]);
  }

  lemma {:induction false} RoundStretch(env: RenderEnv, frame: seq<Block>, declared: seq<Block>,
                                        results: seq<ToolBatches.Recorded>,
                                        inPlace: bool)
    requires WholeRound(env.names, frame, declared, results) && CallsSome(declared)
    ensures var all, answer := RoundFrame(frame, declared, results), AnswerPart(env, frame, declared, ANTHROPIC, inPlace);
            var shown := ResultSegments(env, all, results);
            && SegmentsOf(env, all, 0, |all|, ANTHROPIC, inPlace) ==
               SegmentsOf(env, frame, 0, |frame|, ANTHROPIC, inPlace) + answer + shown
            && answer != [] && StartsOther(answer) && OneRole(env, answer, "assistant") && OneRole(env, shown, "user")
  {
    var answer := AnswerPart(env, frame, declared, ANTHROPIC, inPlace);
    RoundAdds(env, frame, declared, results, ANTHROPIC, inPlace);
    SomeAnswered(env.names, declared, results);
    AnswerCells(env, answer);
    ResultWires(env, RoundFrame(frame, declared, results), results);
    AnswerBegins(answer);
  }

  lemma {:induction false} RoundBody(env: RenderEnv, frame: seq<Block>, declared: seq<Block>,
                                     results: seq<ToolBatches.Recorded>,
                                     native: bool)
    requires WholeRound(env.names, frame, declared, results) && CallsSome(declared) && AnthropicBody(env, frame, native).Ok?
    ensures var all, b := RoundFrame(frame, declared, results), AnthropicBody(env, frame, native).value;
            AnthropicBody(env, all, native) ==
            Ok(Body(PlaceAll(PlaceAll(b.messages, "assistant", SaidCells(env, frame, declared, native)), "user",
                             Cells(env, ResultSegments(env, all, results))),
                    b.offered))
  {
    var all, plan := RoundFrame(frame, declared, results), AnthropicPlan(frame, native);
    PlanStays(frame, declared, results, native);
    BodyIs(env, frame, native);
    BodyIs(env, all, native);
    RoundStretch(env, frame, declared, results, plan.inPlace);
    RoundRenders(env, Body([], plan.tools), SegmentsOf(env, frame, 0, |frame|, ANTHROPIC, plan.inPlace),
                 AnswerPart(env, frame, declared, ANTHROPIC, plan.inPlace), ResultSegments(env, all, results));
  }

  /**
   If a frame's conversation passes the check, the one after a whole round does exactly when each
   call of the answer shows as a tool use, and nothing else in the answer is a use or a result.
   */
  lemma {:induction false} RoundKeepsPaired(env: RenderEnv, frame: seq<Block>, declared: seq<Block>,
                                            results: seq<ToolBatches.Recorded>, native: bool)
    requires WholeRound(env.names, frame, declared, results) && CallsSome(declared) && BodyPaired(env, frame, native)
    ensures EndsWithUser(env, RoundFrame(frame, declared, results), native)
    ensures BodyPaired(env, RoundFrame(frame, declared, results), native)
            <==> ShowsCalls(AnswerBlocks(env, frame, declared, native), DeclaredWires(env.names, declared))
  {
    RoundBody(env, frame, declared, results, native);
    RoundCells(env, frame, declared, results, native);
    AnswerPairs(AnthropicBody(env, frame, native).value.messages, SaidCells(env, frame, declared, native),
                Cells(env, ResultSegments(env, RoundFrame(frame, declared, results), results)), DeclaredWires(env.names, declared));
  }

  // -- a tool change ----------------------------------------------------------------------------------------

  predicate NoChange(segments: seq<Segment>) {
    forall k :: 0 <= k < |segments| ==> !segments[k].ChangeSegment?
  }

  /** Without tool changes to show it does not matter what is offered. */
  lemma {:induction false} OfferedAside(env: RenderEnv, ms: seq<Tagged>, a: Tools, b: Tools, segments: seq<Segment>)
    requires NoChange(segments)
    ensures RenderAll(env, Body(ms, a), segments).Ok? && RenderAll(env, Body(ms, b), segments).Ok?
    ensures RenderAll(env, Body(ms, a), segments).value.messages == RenderAll(env, Body(ms, b), segments).value.messages
    ensures RenderAll(env, Body(ms, a), segments).value.offered == a
    ensures RenderAll(env, Body(ms, b), segments).value.offered == b
    decreases |segments|
  {
    if segments != [] {
      var last := segments[|segments| - 1];
      OfferedAside(env, ms, a, b, segments[..|segments| - 1]);
      OfferedUnused(env, a, last);
      OfferedUnused(env, b, last);
    }
  }

  predicate NoneChanged(blocks: seq<Block>) {
    forall i :: 0 <= i < |blocks| ==> !blocks[i].content.ToolsChanged?
  }

  lemma {:induction false} NoChangesNone(blocks: seq<Block>)
    ensures ChangesOf(blocks) == [] ==> NoneChanged(blocks)
    decreases |blocks|
  {
    if blocks != [] {
      NoChangesNone(blocks[..|blocks| - 1]);
      assert forall i :: 0 <= i < |blocks| - 1 ==> blocks[i] == blocks[..|blocks| - 1][i];
    }
  }

  lemma {:induction false} PartsChangeNothing(env: RenderEnv, role: Role, parts: seq<ContentPart>, k: nat, i: nat,
                                   wire: Option<Json>)
    requires k <= |parts|
    ensures NoChange(PartSegments(env, role, parts, k, i, wire, ANTHROPIC))
    decreases k
  {
    if k > 0 {
      PartsChangeNothing(env, role, parts, k - 1, i, wire);
    }
  }

  lemma {:induction false} HiddenBlock(env: RenderEnv, frame: seq<Block>, i: nat, inPlace: bool)
    requires i < |frame| && (!inPlace || NoneChanged(frame))
    ensures NoChange(BlockSegments(env, frame, i, ANTHROPIC, inPlace))
    ensures BlockSegments(env, frame, i, ANTHROPIC, inPlace) == BlockSegments(env, frame, i, ANTHROPIC, false)
  {
    var b := frame[i];
    if b.content.Message? {
      PartsChangeNothing(env, b.content.role, b.content.parts, |b.content.parts|, i,
                         if b.content.role.Assistant? then OwnWire(b, ANTHROPIC) else None);
    }
  }

  /** A frame whose changes are not shown has no change among its segments. */
  lemma {:induction false} HiddenChanges(env: RenderEnv, frame: seq<Block>, n: nat, inPlace: bool)
    requires n <= |frame| && (!inPlace || NoneChanged(frame))
    ensures NoChange(SegmentsOf(env, frame, 0, n, ANTHROPIC, inPlace))
    ensures SegmentsOf(env, frame, 0, n, ANTHROPIC, inPlace) == SegmentsOf(env, frame, 0, n, ANTHROPIC, false)
    decreases n
  {
    if n > 0 {
      HiddenChanges(env, frame, n - 1, inPlace);
      HiddenBlock(env, frame, n - 1, inPlace);
    }
  }

  lemma ToldSubset(segments: seq<Segment>)
    requires NoChange(segments)
    ensures NoChange(Told(segments))
  {
  }

  lemma ChangeShown(c: ChangeBlock)
    ensures !IsResult(ChangeJson(c)) && !IsUse(ChangeJson(c))
  {
  }

  /** A change shown after a user's message neither asks nor answers anything. */
  lemma {:induction false} ChangePairs(ms: seq<Tagged>, blocks: seq<ChangeBlock>, after: seq<Tagged>)
    requires ms != [] && ms[|ms| - 1].role == "user" && after == PlaceAll(ms, "system", ChangeCells(blocks))
    ensures AnthropicPaired(Untagged(after)) <==> AnthropicPaired(Untagged(ms))
  {
    var cells := ChangeCells(blocks);
    if blocks != [] {
      var shown := BlocksIn(cells);
      PlaceAllForm(ms, "system", cells);
      UntaggedJoin(ms, [Tagged("system", cells)]);
      UntaggedOne(Tagged("system", cells));
      forall i | 0 <= i < |shown| ensures !IsResult(shown[i]) && !IsUse(shown[i]) {
        ChangeShown(blocks[i]);
      }
      assert UseIds(shown) == {};
      PairedSnoc(Untagged(ms), WireMessage("system", shown));
    }
  }

  lemma {:induction false} ChangesSnoc(frame: seq<Block>, b: Block)
    requires b.content.ToolsChanged?
    ensures ChangesOf(frame + [b]) == ChangesOf(frame) + [b.content.change]
  {
    PastOf(frame, b);
  }

  /** A change that is not shown leaves the messages as they are. */
  lemma {:induction false} HiddenChangeBody(env: RenderEnv, frame: seq<Block>, b: Block, native: bool)
    requires b.content.ToolsChanged? && (ChangesOf(frame) == [] || !AnthropicPlan(frame, native).inPlace)
    ensures AnthropicBody(env, frame, native).Ok? && AnthropicBody(env, frame + [b], native).Ok?
    ensures AnthropicBody(env, frame + [b], native).value.messages == AnthropicBody(env, frame, native).value.messages
  {
    var all, plan, next := frame + [b], AnthropicPlan(frame, native), AnthropicPlan(frame + [b], native);
    ChangesSnoc(frame, b);
    NoChangesNone(frame);
    HiddenChanges(env, frame, |frame|, plan.inPlace);
    HiddenChanges(env, frame, |frame|, next.inPlace);
    var segments := SegmentsOf(env, frame, 0, |frame|, ANTHROPIC, false);
    ChangeAdds(env, frame, b, ANTHROPIC, next.inPlace);
    NoneLast(segments);
    ToldSubset(segments);
    BodyIs(env, frame, native);
    BodyIs(env, all, native);
    OfferedAside(env, [], plan.tools, next.tools, Told(segments));
  }

  lemma {:induction false} PlanAfterChange(frame: seq<Block>, b: Block, native: bool)
    requires b.content.ToolsChanged? && ChangesOf(frame) != [] && AnthropicPlan(frame, native).inPlace
    ensures AnthropicPlan(frame + [b], native) == AnthropicPlan(frame, native)
  {
    ChangesSnoc(frame, b);
  }

  lemma {:induction false} RendersChange(env: RenderEnv, b: Body, change: ToolSetChange)
    requires b.messages != [] && b.messages[|b.messages| - 1].role == "user"
    ensures var r := RenderOne(env, b, ChangeSegment(change));
            r.Ok? && r.value.messages == PlaceAll(b.messages, "system", ChangeCells(ChangeBlocks(change, b.offered)))
  {
  }

  lemma {:induction false} ToldWithChange(env: RenderEnv, frame: seq<Block>, b: Block, inPlace: bool, tools: Tools)
    requires b.content.ToolsChanged? && ChangesOf(frame) != [] && inPlace
    ensures var all, body := frame + [b], RenderAll(env, Body([], tools), Told(SegmentsOf(env, frame, 0, |frame|, ANTHROPIC, inPlace)));
            RenderAll(env, Body([], tools), Told(SegmentsOf(env, all, 0, |all|, ANTHROPIC, inPlace))) ==
            if body.Err? then body else RenderOne(env, body.value, ChangeSegment(b.content.change))
  {
    var segments, change := SegmentsOf(env, frame, 0, |frame|, ANTHROPIC, inPlace), ChangeSegment(b.content.change);
    ChangeAdds(env, frame, b, ANTHROPIC, inPlace);
    ToldMore(segments, [change]);
    RenderSnoc(env, Body([], tools), Told(segments), change);
  }

  lemma {:induction false} BodyWithChange(env: RenderEnv, frame: seq<Block>, b: Block, native: bool)
    requires b.content.ToolsChanged? && ChangesOf(frame) != [] && AnthropicPlan(frame, native).inPlace
    requires AnthropicBody(env, frame, native).Ok?
    ensures AnthropicBody(env, frame + [b], native) ==
            RenderOne(env, AnthropicBody(env, frame, native).value, ChangeSegment(b.content.change))
  {
    var plan := AnthropicPlan(frame, native);
    PlanAfterChange(frame, b, native);
    BodyIs(env, frame, native);
    BodyIs(env, frame + [b], native);
    ToldWithChange(env, frame, b, plan.inPlace, plan.tools);
  }

  lemma {:induction false} ChangeRendered(before: Result<Body, ErrorKind>, after: Result<Body, ErrorKind>, blocks: seq<ChangeBlock>)
    requires UserLast(before) && after.Ok?
    requires after.value.messages == PlaceAll(before.value.messages, "system", ChangeCells(blocks))
    ensures Pairs(after) <==> Pairs(before)
  {
    ChangePairs(before.value.messages, blocks, after.value.messages);
  }

  /** A change shown in place is a message of its own after the user's. */
  lemma {:induction false} ShownKeepsPaired(env: RenderEnv, frame: seq<Block>, b: Block, native: bool)
    requires b.content.ToolsChanged? && ChangesOf(frame) != [] && AnthropicPlan(frame, native).inPlace
    requires EndsWithUser(env, frame, native)
    ensures BodyPaired(env, frame + [b], native) <==> BodyPaired(env, frame, native)
  {
    var before := AnthropicBody(env, frame, native);
    BodyWithChange(env, frame, b, native);
    RendersChange(env, before.value, b.content.change);
    ChangeRendered(before, AnthropicBody(env, frame + [b], native), ChangeBlocks(b.content.change, before.value.offered));
  }

  lemma {:induction false} HiddenKeepsPaired(env: RenderEnv, frame: seq<Block>, b: Block, native: bool)
    requires b.content.ToolsChanged? && (ChangesOf(frame) == [] || !AnthropicPlan(frame, native).inPlace)
    ensures BodyPaired(env, frame + [b], native) <==> BodyPaired(env, frame, native)
  {
    HiddenChangeBody(env, frame, b, native);
  }

  /** A tool change after a user's message leaves the check as it was. */
  lemma {:induction false} ChangeKeepsPaired(env: RenderEnv, frame: seq<Block>, b: Block, native: bool)
    requires b.content.ToolsChanged? && EndsWithUser(env, frame, native)
    ensures BodyPaired(env, frame + [b], native) <==> BodyPaired(env, frame, native)
  {
    if ChangesOf(frame) == [] || !AnthropicPlan(frame, native).inPlace {
      HiddenKeepsPaired(env, frame, b, native);
    } else {
      ShownKeepsPaired(env, frame, b, native);
    }
  }

  // -- an answer that breaks it -----------------------------------------------------------------------------

  const Call := Block(1, Declaration(ToolInput("t", Obj(map[]))), NoMeta)

  const Claimed := Obj(map["type" := Str("tool_result")])

  const SealedResult := Block(2, Message(Assistant, [Sealed(ANTHROPIC, Claimed)]), NoMeta)

  lemma {:induction false} SealedRound(n: ToolHistory.Names, payload: ToolResult)
    requires !n.blank("t") && n.idText(1) != "" && payload.callBlockId == 1
    ensures WholeRound(n, [], [Call, SealedResult], [ToolBatches.Recorded(3, payload)]) && CallsSome([Call, SealedResult])
  {
    var declared, results := [Call, SealedResult], [ToolBatches.Recorded(3, payload)];
    assert [] + declared == declared && declared[0] == Call && declared[1] == SealedResult;
    assert [] + declared[..0] == [];
    assert IsDeclaration(declared, 1);
    assert Ids(declared) == [1, 2];
    forall id | Declares(declared, id) ensures AnswersCall(results, id) {
      assert results[0].payload.callBlockId == 1;
    }
  }

  lemma {:induction false} SealedSegments(env: RenderEnv, inPlace: bool)
    ensures SegmentsOf(env, [Call, SealedResult], 0, 2, ANTHROPIC, inPlace) ==
            [CallSegment(env.names.idText(1), "t", Obj(map[]), None)] + [SealedSegment(Claimed)]
  {
    var all := [Call, SealedResult];
    OneBlock(env, all, 0, ANTHROPIC, inPlace);
    OneBlock(env, all, 1, ANTHROPIC, inPlace);
    SegmentsJoin(env, all, 0, 1, 2, ANTHROPIC, inPlace);
    OnePart(env, Sealed(ANTHROPIC, Claimed), 1, None, ANTHROPIC);
  }

  lemma {:induction false} LastCell(env: RenderEnv, first: seq<Segment>, item: Json)
    ensures Cells(env, first + [SealedSegment(item)]) == Cells(env, first) + [Cell(item, Verbatim)]
  {
    PastOf(first, SealedSegment(item));
  }

  /** An answer with a sealed item that claims to be a result: the next conversation no longer passes. */
  lemma {:induction false} SealedSplits(env: RenderEnv, payload: ToolResult, native: bool)
    requires !env.names.blank("t") && env.names.idText(1) != "" && payload.callBlockId == 1
    ensures var declared, results := [Call, SealedResult], [ToolBatches.Recorded(3, payload)];
            && WholeRound(env.names, [], declared, results) && BodyPaired(env, [], native)
            && !BodyPaired(env, RoundFrame([], declared, results), native)
  {
    var declared := [Call, SealedResult];
    SealedRound(env.names, payload);
    SealedSegments(env, AnthropicPlan([], native).inPlace);
    assert [] + declared == declared && |declared| == 2;
    var call := CallSegment(env.names.idText(1), "t", Obj(map[]), None);
    LastCell(env, [call], Claimed);
    var said := AnswerBlocks(env, [], declared, native);
    assert said[|said| - 1] == Claimed && IsResult(Claimed);
    RoundKeepsPaired(env, [], declared, [ToolBatches.Recorded(3, payload)], native);
  }
}
