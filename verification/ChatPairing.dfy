/** The pairing check on Chat messages as a run goes on: what a round must not do for it to keep passing. */
module ChatPairing {
  import opened Wrappers
  import opened Sequences
  import opened Json
  import opened Model
  import opened Blocks
  import opened ToolHistory
  import ToolBatches
  import opened FrameGrowth
  import opened Segments
  import opened ChatWire
  import opened RoundSegments
  import opened Requests
  import ChatReplay

  // -- pairing, piece by piece ----------------------------------------------------------------------

  predicate StartsPlain(ms: seq<Json>) {
    ms == [] || !IsTool(ms[0])
  }

  lemma {:induction false} ToolRunLocal(a: seq<Json>, b: seq<Json>)
    requires StartsPlain(b)
    ensures ToolRun(a + b) == ToolRun(a)
    decreases |a|
  {
    if a == [] {
      assert a + b == b;
    } else {
      assert (a + b)[0] == a[0] && (a + b)[1..] == a[1..] + b;
      ToolRunLocal(a[1..], b);
    }
  }

  /** The first group of a longer list is that of the shorter. */
  lemma {:induction false} GroupLocal(a: seq<Json>, b: seq<Json>)
    requires a != [] && StartsPlain(b)
    ensures var all, n := a + b, ToolRun(a[1..]);
            && all[0] == a[0] && ToolRun(all[1..]) == n
            && all[1..1 + n] == a[1..1 + n] && all[1 + n..] == a[1 + n..] + b
  {
    assert (a + b)[1..] == a[1..] + b;
    ToolRunLocal(a[1..], b);
  }

  /** Lists that meet at a message which is not a tool's pair up on their own. */
  lemma {:induction false} PairedJoin(a: seq<Json>, b: seq<Json>)
    requires StartsPlain(b)
    ensures ChatPaired(a + b) <==> ChatPaired(a) && ChatPaired(b)
    decreases |a|
  {
    if a == [] {
      NoneFirst(b);
    } else {
      GroupLocal(a, b);
      PairedJoin(a[1 + ToolRun(a[1..])..], b);
    }
  }

  lemma {:induction false} AllToolsRun(tools: seq<Json>)
    requires forall k :: 0 <= k < |tools| ==> IsTool(tools[k])
    ensures ToolRun(tools) == |tools|
    decreases |tools|
  {
    if tools != [] {
      AllToolsRun(tools[1..]);
    }
  }

  /** A message and the tool messages after it. */
  lemma {:induction false} PairedGroup(m: Json, tools: seq<Json>)
    requires !IsTool(m) && forall k :: 0 <= k < |tools| ==> IsTool(tools[k])
    ensures ChatPaired([m] + tools) <==> Exactly(Answers(tools), CallIds(m))
  {
    var all := [m] + tools;
    AllToolsRun(tools);
    assert all[1..] == tools && all[1..1 + |tools|] == tools && all[1 + |tools|..] == [];
  }

  lemma {:induction false} PairedAlone(m: Json)
    requires !IsTool(m)
    ensures ChatPaired([m]) <==> CallIds(m) == {}
  {
    PairedGroup(m, []);
    NoneOwed(CallIds(m));
    assert [m] + [] == [m];
  }

  predicate NoTools(ms: seq<Json>) {
    forall k :: 0 <= k < |ms| ==> !IsTool(ms[k])
  }

  predicate Silent(ms: seq<Json>) {
    forall k :: 0 <= k < |ms| ==> CallIds(ms[k]) == {}
  }

  lemma {:induction false} PairedSilent(ms: seq<Json>)
    requires NoTools(ms) && Silent(ms)
    ensures ChatPaired(ms)
    decreases |ms|
  {
    if ms != [] {
      PairedSilent(ms[1..]);
      PairedAlone(ms[0]);
      PairedJoin([ms[0]], ms[1..]);
      assert ms == [ms[0]] + ms[1..];
    }
  }

  /** Calls that are not answered right after stay unanswered. */
  lemma {:induction false} Unanswered(before: seq<Json>, a: seq<Json>, after: seq<Json>, k: nat)
    requires NoTools(a) && k + 1 < |a| && CallIds(a[k]) != {}
    ensures !ChatPaired(before + a + after)
  {
    var early, late := before + a[..k + 1], a[k + 1..] + after;
    assert before + a + after == early + late;
    PairedJoin(early, late);
    assert early == before + a[..k] + [a[k]];
    PairedJoin(before + a[..k], [a[k]]);
    PairedAlone(a[k]);
  }

  // -- the walk over an answer ------------------------------------------------------------------------

  function Base(c: Chat): seq<Json> {
    c.messages + c.hoisted
  }

  function RunIds(c: Chat): set<string> {
    StringIds(RunOf(c).calls)
  }

  predicate Named(calls: seq<Json>) {
    forall k :: 0 <= k < |calls| ==> StrOf(calls[k], "id").Some?
  }

  /** An open message leaves no media waiting, and its calls have ids. */
  predicate Tidy(c: Chat) {
    c.run.Some? ==> c.hoisted == [] && Named(c.run.value.calls)
  }

  function MessageOf(c: Chat): seq<Json> {
    if c.run.Some? && AssistantMessage(c.run.value).Some? then [AssistantMessage(c.run.value).value] else []
  }

  lemma StringIdsMore(calls: seq<Json>, call: Json)
    requires StrOf(call, "id").Some?
    ensures StringIds(calls + [call]) == StringIds(calls) + {StrOf(call, "id").value}
  {
    var all := calls + [call];
    forall id ensures id in StringIds(all) <==> id in StringIds(calls) || id == StrOf(call, "id").value {
      if id in StringIds(calls) {
        var i :| 0 <= i < |calls| && StrOf(calls[i], "id").Some? && StrOf(calls[i], "id").value == id;
        assert all[i] == calls[i];
      }
      assert all[|calls|] == call;
    }
  }

  lemma CallNamed(env: RenderEnv, wireId: string, name: string, arguments: Json, wire: Option<Json>)
    ensures StrOf(CallJson(env.codec, wireId, name, arguments, wire), "id") == Some(wireId)
  {
  }

  /** A message that was put together is no tool's, and has the ids of its run's calls if there are any. */
  lemma {:induction false} MessageCalls(run: AssistantRun)
    ensures run.calls != [] ==> AssistantMessage(run).Some?
    ensures AssistantMessage(run).Some? ==> !IsTool(AssistantMessage(run).value)
    ensures run.calls != [] ==> CallIds(AssistantMessage(run).value) == StringIds(run.calls)
  {
  }

  lemma NamedHasIds(calls: seq<Json>)
    requires Named(calls) && calls != []
    ensures StringIds(calls) != {}
  {
    assert StrOf(calls[0], "id").value in StringIds(calls);
  }

  /** What one step over an assistant's segment does. */
  predicate Stepped(c: Chat, s: Segment, next: Chat, closed: seq<Json>) {
    && Tidy(next) && Base(next) == Base(c) + closed && NoTools(closed)
    && (closed != [] ==> CallIds(closed[|closed| - 1]) == {})
    && RunIds(next) <= RunIds(c) + Called([s]) && (Silent(closed) ==> RunIds(next) == RunIds(c) + Called([s]))
    && (StaysOpen(s) ==> closed == []) && (c.hoisted == [] || s.CallSegment? ==> next.hoisted == [])
  }

  lemma CalledOne(s: Segment)
    ensures Called([s]) == if s.CallSegment? then {s.wireId} else {}
  {
    assert s.CallSegment? ==> [s][0].wireId in Called([s]);
  }

  lemma {:induction false} OpenStepped(env: RenderEnv, o: Options, c: Chat, s: Segment)
    requires Tidy(c) && OfAssistant(s) && StaysOpen(s)
    ensures Stepped(c, s, if IsBlank(env, s) then c else StepOne(env, o, Flushed(c, s), s), [])
  {
    CalledOne(s);
    var none: seq<Json> := [];
    assert Base(c) + none == Base(c);
    if !IsBlank(env, s) {
      var next := StepOne(env, o, Flushed(c, s), s);
      assert c.run.Some? ==> c.messages + c.hoisted == c.messages;
      assert next.hoisted == [] && next.messages == c.messages + c.hoisted && next.messages + none == next.messages;
      if s.CallSegment? {
        CallNamed(env, s.wireId, s.name, s.arguments, s.wire);
        StringIdsMore(RunOf(c).calls, CallJson(env.codec, s.wireId, s.name, s.arguments, s.wire));
      }
    }
  }

  lemma {:induction false} MediaStepped(env: RenderEnv, o: Options, c: Chat, s: Segment) returns (closed: seq<Json>)
    requires Tidy(c) && OfAssistant(s) && Closes(s)
    ensures Stepped(c, s, StepOne(env, o, Flushed(c, s), s), closed)
  {
    CalledOne(s);
    var next := StepOne(env, o, Flushed(c, s), s);
    var shown := next.messages[|next.messages| - 1];
    closed := MessageOf(c) + [shown];
    assert !IsTool(shown) && CallIds(shown) == {};
    assert next.messages == Base(c) + MessageOf(c) + [shown] && next.hoisted == [] && next.run.None?;
    Associate(Base(c), MessageOf(c), [shown]);
    NoneLast(next.messages);
    MessageCalls(RunOf(c));
    if Silent(closed) {
      if RunOf(c).calls != [] {
        assert closed[0] == AssistantMessage(RunOf(c)).value;
      }
      assert RunIds(c) == {};
    }
    assert closed[|closed| - 1] == shown;
  }

  predicate Closes(s: Segment) {
    !StaysOpen(s)
  }

  predicate StayOpen(segments: seq<Segment>) {
    forall k :: 0 <= k < |segments| ==> StaysOpen(segments[k])
  }

  /** What a walk over an answer's segments does: the messages it closes, and the calls left open. */
  predicate Walked(c: Chat, segments: seq<Segment>, w: Chat, closed: seq<Json>) {
    && Tidy(w) && Base(w) == Base(c) + closed && NoTools(closed)
    && (closed != [] ==> CallIds(closed[|closed| - 1]) == {})
    && RunIds(w) <= RunIds(c) + Called(segments) && (Silent(closed) ==> RunIds(w) == RunIds(c) + Called(segments))
    && (StayOpen(segments) ==> closed == []) && (c.hoisted == [] || Called(segments) != {} ==> w.hoisted == [])
  }

  lemma QuietJoin(a: seq<Json>, b: seq<Json>)
    ensures Silent(a + b) <==> Silent(a) && Silent(b)
    ensures NoTools(a) && NoTools(b) ==> NoTools(a + b)
    ensures a + b != [] ==> (a + b)[|a + b| - 1] == (if b != [] then b[|b| - 1] else a[|a| - 1])
  {
    var all := a + b;
    assert forall k :: 0 <= k < |a| ==> all[k] == a[k];
    assert forall k :: 0 <= k < |b| ==> all[|a| + k] == b[k];
  }

  lemma StayOpenCons(s: Segment, rest: seq<Segment>)
    ensures StayOpen([s] + rest) <==> StaysOpen(s) && StayOpen(rest)
  {
    var all := [s] + rest;
    assert all[0] == s && forall k :: 0 <= k < |rest| ==> all[k + 1] == rest[k];
  }

  lemma {:induction false} WalkedMore(c: Chat, s: Segment, next: Chat, first: seq<Json>, rest: seq<Segment>, w: Chat,
                                      more: seq<Json>)
    requires Stepped(c, s, next, first) && Walked(next, rest, w, more)
    ensures Walked(c, [s] + rest, w, first + more)
  {
    CalledJoins([s], rest);
    CalledOne(s);
    Associate(Base(c), first, more);
    QuietJoin(first, more);
    StayOpenCons(s, rest);
    NoneLast(first);
  }

  lemma {:induction false} AnswerWalk(env: RenderEnv, o: Options, c: Chat,
                                      segments: seq<Segment>)
    returns (closed: seq<Json>)
    requires Tidy(c) && AllOfAssistant(segments)
    ensures Walked(c, segments, Walk(env, o, c, segments), closed)
    decreases |segments|
  {
    if segments == [] {
      closed := [];
      NoneLast(Base(c));
    } else {
      var s, rest := segments[0], segments[1..];
      var next, first := Step(env, o, c, segments), [];
      assert OfAssistant(s) && Taken(segments) == 1 && AllOfAssistant(rest);
      if StaysOpen(s) {
        OpenStepped(env, o, c, s);
      } else {
        first := MediaStepped(env, o, c, s);
      }
      var more := AnswerWalk(env, o, next, rest);
      WalkedMore(c, s, next, first, rest, Walk(env, o, next, rest), more);
      closed := first + more;
      assert segments == [s] + rest;
    }
  }

  // -- any walk, and the walk over results -------------------------------------------------------------

  lemma {:induction false} TidyStep(env: RenderEnv, o: Options, c: Chat, segments: seq<Segment>)
    requires Tidy(c) && segments != []
    ensures Tidy(Step(env, o, c, segments))
  {
    var s := segments[0];
    if s.CallSegment? {
      CallNamed(env, s.wireId, s.name, s.arguments, s.wire);
    }
  }

  lemma {:induction false} TidyWalk(env: RenderEnv, o: Options, c: Chat, segments: seq<Segment>)
    requires Tidy(c)
    ensures Tidy(Walk(env, o, c, segments))
    decreases |segments|
  {
    if segments != [] {
      TidyStep(env, o, c, segments);
      TidyWalk(env, o, Step(env, o, c, segments), segments[Taken(segments)..]);
    }
  }

  predicate OfResults(segments: seq<Segment>) {
    forall k :: 0 <= k < |segments| ==> segments[k].ResultSegment?
  }

  function ToolMessages(segments: seq<Segment>): (ms: seq<Json>)
    requires OfResults(segments)
    ensures |ms| == |segments|
    ensures forall k :: 0 <= k < |ms| ==> ms[k] == ToolMessage(segments[k].wireId, segments[k].content, segments[k].notes)
  {
    seq(|segments|, k requires 0 <= k < |segments| => ToolMessage(segments[k].wireId, segments[k].content, segments[k].notes))
  }

  lemma ToolAnswers(wireId: string, content: string, notes: seq<string>)
    ensures IsTool(ToolMessage(wireId, content, notes))
    ensures TextIn(ToolMessage(wireId, content, notes), "tool_call_id") == wireId
  {
  }

  lemma HoistedQuiet(wireId: string, media: seq<Resolved>)
    ensures NoTools(HoistedMedia(wireId, media)) && Silent(HoistedMedia(wireId, media))
  {
  }

  lemma {:induction false} ResultStep(env: RenderEnv, o: Options, c: Chat, segments: seq<Segment>)
    requires segments != [] && segments[0].ResultSegment?
    ensures Taken(segments) == 1 && var s, closed := segments[0], Closed(c);
            Step(env, o, c, segments) ==
            Chat(closed.messages + [ToolMessage(s.wireId, s.content, s.notes)], None,
                 closed.hoisted + HoistedMedia(s.wireId, s.attachments))
  {
  }

  /** Results close the open message and follow it; media wait behind all of them. */
  lemma {:induction false} ResultsWalk(env: RenderEnv, o: Options, c: Chat,
                                       segments: seq<Segment>)
    returns (media: seq<Json>)
    requires OfResults(segments) && segments != []
    ensures NoTools(media) && Silent(media)
    ensures Walk(env, o, c, segments) == Chat(Closed(c).messages + ToolMessages(segments), None, Closed(c).hoisted + media)
    decreases |segments|
  {
    var s, rest, closed := segments[0], segments[1..], Closed(c);
    var next := Step(env, o, c, segments);
    var tool, own := ToolMessage(s.wireId, s.content, s.notes), HoistedMedia(s.wireId, s.attachments);
    ResultStep(env, o, c, segments);
    HoistedQuiet(s.wireId, s.attachments);
    if rest == [] {
      media := own;
      assert ToolMessages(segments) == [tool];
    } else {
      var more := ResultsWalk(env, o, next, rest);
      media := own + more;
      QuietJoin(own, more);
      assert ToolMessages(segments) == [tool] + ToolMessages(rest);
      Associate(closed.messages, [tool], ToolMessages(rest));
      Associate(closed.hoisted, own, more);
    }
  }

  // -- a round --------------------------------------------------------------------------------------------

  lemma {:induction false} FinishedParts(c: Chat)
    requires Tidy(c)
    ensures Finished(c) == Base(c) + MessageOf(c)
  {
    NoneLast(c.messages);
    NoneLast(Base(c));
  }

  /** What a paired list leaves open asks for nothing. */
  lemma {:induction false} OpenAsksNothing(c: Chat)
    requires Tidy(c) && ChatPaired(Finished(c))
    ensures ChatPaired(Base(c)) && RunIds(c) == {}
  {
    FinishedParts(c);
    MessageCalls(RunOf(c));
    PairedJoin(Base(c), MessageOf(c));
    if MessageOf(c) != [] {
      PairedAlone(MessageOf(c)[0]);
    }
  }

  lemma {:induction false} GroupPairs(base: seq<Json>, message: Json, tools: seq<Json>, media: seq<Json>)
    requires ChatPaired(base) && !IsTool(message) && (forall k :: 0 <= k < |tools| ==> IsTool(tools[k]))
    requires Exactly(Answers(tools), CallIds(message)) && NoTools(media) && Silent(media)
    ensures ChatPaired(base + ([message] + tools) + media)
  {
    PairedGroup(message, tools);
    PairedJoin(base, [message] + tools);
    PairedSilent(media);
    PairedJoin(base + ([message] + tools), media);
  }

  predicate AllTools(tools: seq<Json>) {
    forall k :: 0 <= k < |tools| ==> IsTool(tools[k])
  }

  /** The messages after a round, when the answer closed no message with calls. */
  lemma {:induction false} RoundTogether(base: seq<Json>, w: Chat, closed: seq<Json>, asked: set<string>,
                                         tools: seq<Json>, media: seq<Json>)
    requires ChatPaired(base) && Tidy(w) && w.hoisted == [] && w.messages == base + closed && NoTools(closed)
    requires asked != {} && Silent(closed) && RunIds(w) == asked
    requires AllTools(tools) && Exactly(Answers(tools), asked) && NoTools(media) && Silent(media)
    ensures ChatPaired(Closed(w).messages + tools + media)
  {
    MessageCalls(RunOf(w));
    assert RunOf(w).calls != [];
    var message := AssistantMessage(w.run.value).value;
    PairedSilent(closed);
    PairedJoin(base, closed);
    GroupPairs(w.messages, message, tools, media);
    Associate(w.messages, [message], tools);
  }

  /** The messages after a round, when it did. */
  lemma {:induction false} RoundSplit(base: seq<Json>, w: Chat, closed: seq<Json>, tools: seq<Json>, media: seq<Json>)
    requires Tidy(w) && w.hoisted == [] && w.messages == base + closed && NoTools(closed)
    requires closed != [] ==> CallIds(closed[|closed| - 1]) == {}
    requires !Silent(closed)
    ensures !ChatPaired(Closed(w).messages + tools + media)
  {
    var k :| 0 <= k < |closed| && CallIds(closed[k]) != {};
    var own := MessageOf(w);
    Unanswered(base, closed, own + tools + media, k);
    NoneLast(w.messages);
    assert Closed(w).messages == w.messages + own;
    Associate(w.messages, own, tools);
    Associate(w.messages, own + tools, media);
  }

  /** An answer and the results of its calls: paired exactly when the answer closed no message with calls. */
  lemma {:induction false} RoundPairs(env: RenderEnv, o: Options, c: Chat, answer: seq<Segment>, results: seq<Segment>)
    requires Tidy(c) && ChatPaired(Finished(c)) && AllOfAssistant(answer) && Called(answer) != {}
    requires OfResults(results) && results != [] && Exactly(Answers(ToolMessages(results)), Called(answer))
    ensures var w := Walk(env, o, c, answer);
            && Base(c) <= w.messages
            && (ChatPaired(Finished(Walk(env, o, w, results))) <==> Silent(w.messages[|Base(c)|..]))
            && (StayOpen(answer) ==> w.messages == Base(c))
  {
    var w := Walk(env, o, c, answer);
    OpenAsksNothing(c);
    var closed := AnswerWalk(env, o, c, answer);
    var media := ResultsWalk(env, o, w, results);
    NoneLast(w.messages);
    assert w.messages == Base(c) + closed && w.messages[|Base(c)|..] == closed;
    assert RunIds(c) + Called(answer) == Called(answer);
    forall k | 0 <= k < |results| ensures IsTool(ToolMessages(results)[k]) {
      ToolAnswers(results[k].wireId, results[k].content, results[k].notes);
    }
    NoneFirst(media);
    if Silent(closed) {
      RoundTogether(Base(c), w, closed, Called(answer), ToolMessages(results), media);
    } else {
      RoundSplit(Base(c), w, closed, ToolMessages(results), media);
    }
  }

  // -- a frame ----------------------------------------------------------------------------------------------

  function WalkOf(env: RenderEnv, o: Options, frame: seq<Block>): Chat {
    Walk(env, o, Start, SegmentsOf(env, frame, 0, |frame|, CHAT, false))
  }

  /** The answer, rendered after the frame, puts no message with calls behind it before it ends. */
  predicate CallsTogether(env: RenderEnv, o: Options, frame: seq<Block>, declared: seq<Block>) {
    var c, w := WalkOf(env, o, frame), WalkOf(env, o, frame + declared);
    forall k :: |Base(c)| <= k < |w.messages| ==> CallIds(w.messages[k]) == {}
  }

  lemma {:induction false} AnswersAre(env: RenderEnv, all: seq<Block>, results: seq<ToolBatches.Recorded>)
    ensures OfResults(ResultSegments(env, all, results))
    ensures Answers(ToolMessages(ResultSegments(env, all, results))) == WiresOf(env, all, results)
  {
    var segments := ResultSegments(env, all, results);
    forall k | 0 <= k < |segments|
      ensures Answers(ToolMessages(segments))[k] == WiresOf(env, all, results)[k]
    {
      ToolAnswers(segments[k].wireId, segments[k].content, segments[k].notes);
    }
  }

  /** The walk over a frame and a round after it. */
  lemma {:induction false} RoundWalk(env: RenderEnv, o: Options, frame: seq<Block>, declared: seq<Block>,
                                     results: seq<ToolBatches.Recorded>)
    requires WholeRound(env.names, frame, declared, results)
    ensures var all, answer := RoundFrame(frame, declared, results), AnswerPart(env, frame, declared, CHAT, false);
            && WalkOf(env, o, frame + declared) == Walk(env, o, WalkOf(env, o, frame), answer)
            && WalkOf(env, o, all) == Walk(env, o, WalkOf(env, o, frame + declared), ResultSegments(env, all, results))
  {
    RoundAdds(env, frame, declared, results, CHAT, false);
    AnswerFrame(env, frame, declared, CHAT, false);
    var all, answer := RoundFrame(frame, declared, results), AnswerPart(env, frame, declared, CHAT, false);
    var first, last := SegmentsOf(env, frame, 0, |frame|, CHAT, false), ResultSegments(env, all, results);
    assert SeamFree(first, answer) by {
      assert answer != [] ==> OfAssistant(answer[0]);
    }
    WalkJoins(env, o, Start, first, answer);
    WalkJoins(env, o, Start, first + answer, last);
  }

  /**
   If a frame's messages pair up, those after a whole round do exactly when the answer, rendered
   after the frame, closes no message that has calls.
   */
  lemma {:induction false} RoundKeepsPaired(env: RenderEnv, o: Options, frame: seq<Block>, declared: seq<Block>,
                                            results: seq<ToolBatches.Recorded>)
    requires WholeRound(env.names, frame, declared, results) && CallsSome(declared)
    requires ChatPaired(ChatMessages(env, o, frame))
    ensures ChatPaired(ChatMessages(env, o, RoundFrame(frame, declared, results))) <==>
            CallsTogether(env, o, frame, declared)
    ensures StayOpen(AnswerPart(env, frame, declared, CHAT, false)) ==> CallsTogether(env, o, frame, declared)
  {
    var all := RoundFrame(frame, declared, results);
    TidyWalk(env, o, Start, SegmentsOf(env, frame, 0, |frame|, CHAT, false));
    RoundAdds(env, frame, declared, results, CHAT, false);
    RoundWalk(env, o, frame, declared, results);
    SomeAnswered(env.names, declared, results);
    AnswersAre(env, all, results);
    var answer := AnswerPart(env, frame, declared, CHAT, false);
    RoundPairs(env, o, WalkOf(env, o, frame), answer, ResultSegments(env, all, results));
    SilentFrom(Base(WalkOf(env, o, frame)), WalkOf(env, o, frame + declared).messages);
  }

  lemma SilentFrom(base: seq<Json>, messages: seq<Json>)
    requires base <= messages
    ensures Silent(messages[|base|..]) <==> forall k :: |base| <= k < |messages| ==> CallIds(messages[k]) == {}
  {
    var rest := messages[|base|..];
    forall k | |base| <= k < |messages| ensures messages[k] == rest[k - |base|] {
    }
    if Silent(rest) {
      forall k | |base| <= k < |messages| ensures CallIds(messages[k]) == {} {
        assert messages[k] == rest[k - |base|];
      }
    }
  }

  /** A tool change is not in the messages. */
  lemma {:induction false} ChangeUnseen(env: RenderEnv, o: Options, frame: seq<Block>, b: Block)
    requires b.content.ToolsChanged?
    ensures ChatMessages(env, o, frame + [b]) == ChatMessages(env, o, frame)
  {
    ChangeAdds(env, frame, b, CHAT, false);
    NoneLast(SegmentsOf(env, frame, 0, |frame|, CHAT, false));
  }

  /** A committed Chat answer always keeps its calls together. */
  lemma {:induction false} ParsedTogether(env: RenderEnv, o: Options, frame: seq<Block>, output: ModelOutput,
                                          answer: seq<Block>,
                                          results: seq<ToolBatches.Recorded>)
    requires ChatReplay.ChatItems(output.items) && ChatReplay.CommittedAs(env, output, answer)
    requires WholeRound(env.names, frame, answer, results) && CallsSome(answer) && ChatPaired(ChatMessages(env, o, frame))
    ensures ChatPaired(ChatMessages(env, o, RoundFrame(frame, answer, results)))
  {
    var all := frame + answer;
    assert StandsAt(all, |frame|, answer);
    ChatReplay.AnswerSegments(env, all, |frame|, |all|, output, answer);
    RoundKeepsPaired(env, o, frame, answer, results);
  }

  const Call := Block(1, Declaration(ToolInput("t", Obj(map[]))), NoMeta)

  function Picture(m: MediaRef): Block {
    Block(2, Message(Assistant, [Media(m)]), NoMeta)
  }

  lemma {:induction false} PictureRound(n: ToolHistory.Names, m: MediaRef, payload: ToolResult)
    requires !n.blank("t") && n.idText(1) != "" && payload.callBlockId == 1
    ensures WholeRound(n, [], [Call, Picture(m)], [ToolBatches.Recorded(3, payload)]) && CallsSome([Call, Picture(m)])
  {
    var declared := [Call, Picture(m)];
    assert [] + declared == declared && declared[0] == Call && declared[1] == Picture(m);
    assert [] + declared[..0] == [];
    assert IsDeclaration(declared, 1);
    assert Ids(declared) == [1, 2];
    var results := [ToolBatches.Recorded(3, payload)];
    forall id | Declares(declared, id) ensures AnswersCall(results, id) {
      assert results[0].payload.callBlockId == 1;
    }
  }

  lemma {:induction false} PictureSegments(env: RenderEnv, m: MediaRef)
    ensures SegmentsOf(env, [Call, Picture(m)], 0, 2, CHAT, false) ==
            [CallSegment(env.names.idText(1), "t", Obj(map[]), None)] + [MediaSegment(Assistant, Resolve(env, m, Assistant), 1)]
  {
    var all := [Call, Picture(m)];
    OneBlock(env, all, 0, CHAT, false);
    OneBlock(env, all, 1, CHAT, false);
    SegmentsJoin(env, all, 0, 1, 2, CHAT, false);
    OnePart(env, Media(m), 1, None, CHAT);
  }

  lemma {:induction false} CallThenPicture(env: RenderEnv, o: Options, wireId: string, picture: Segment)
    requires picture.MediaSegment? && picture.role.Assistant?
    ensures var w := Walk(env, o, Start, [CallSegment(wireId, "t", Obj(map[]), None)] + [picture]);
            |w.messages| == 2 && CallIds(w.messages[0]) == {wireId}
  {
    var call, sent := CallSegment(wireId, "t", Obj(map[]), None), CallJson(env.codec, wireId, "t", Obj(map[]), None);
    var none: seq<Json>, c := [], Walk(env, o, Start, [call]);
    WalkJoins(env, o, Start, [call], [picture]);
    WalkOne(env, o, Start, call);
    WalkOne(env, o, c, picture);
    CallNamed(env, wireId, "t", Obj(map[]), None);
    assert none + none == none && none + [sent] == [sent];
    StringIdsMore(none, sent);
    MessageCalls(c.run.value);
  }

  lemma {:induction false} PictureCloses(env: RenderEnv, o: Options, m: MediaRef)
    ensures var w := WalkOf(env, o, [Call, Picture(m)]);
            |w.messages| == 2 && CallIds(w.messages[0]) == {env.names.idText(1)}
  {
    PictureSegments(env, m);
    CallThenPicture(env, o, env.names.idText(1), MediaSegment(Assistant, Resolve(env, m, Assistant), 1));
  }

  /** An answer that shows a picture after a call: the next frame no longer pairs up. */
  lemma {:induction false} PictureSplits(env: RenderEnv, o: Options, m: MediaRef, payload: ToolResult)
    requires !env.names.blank("t") && env.names.idText(1) != "" && payload.callBlockId == 1
    ensures var declared, results := [Call, Picture(m)], [ToolBatches.Recorded(3, payload)];
            && WholeRound(env.names, [], declared, results) && ChatPaired(ChatMessages(env, o, []))
            && !ChatPaired(ChatMessages(env, o, RoundFrame([], declared, results)))
  {
    PictureRound(env.names, m, payload);
    PictureCloses(env, o, m);
    assert [] + [Call, Picture(m)] == [Call, Picture(m)];
    assert ChatMessages(env, o, []) == [];
    RoundKeepsPaired(env, o, [], [Call, Picture(m)], [ToolBatches.Recorded(3, payload)]);
  }
}
