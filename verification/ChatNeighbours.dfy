/** Chat assistant messages next to each other: when they become one message, and what that one holds. */
module ChatNeighbours {
  import opened Wrappers
  import opened Json
  import opened Model
  import opened Blocks
  import opened ChatParse
  import opened ChatWire
  import opened ChatReplay
  import opened Segments
  import Sequences

  // -- two messages, one run ----------------------------------------------------------------------

  /** Texts and calls one after the other, but only the first sealed object. */
  function Merged(a: AssistantRun, b: AssistantRun): AssistantRun {
    AssistantRun(a.text + b.text, if a.sealed.Some? then a.sealed else b.sealed, a.calls + b.calls)
  }

  lemma MergedTwice(a: AssistantRun, b: AssistantRun, c: AssistantRun)
    ensures Merged(Merged(a, b), c) == Merged(a, Merged(b, c))
  {
    assert a.text + b.text + c.text == a.text + (b.text + c.text);
    assert a.calls + b.calls + c.calls == a.calls + (b.calls + c.calls);
  }

  lemma MergedWithNone(a: AssistantRun)
    ensures Merged(a, NoRun) == a && Merged(NoRun, a) == a
  {
    assert a.text + "" == a.text && "" + a.text == a.text;
    assert a.calls + [] == a.calls && [] + a.calls == a.calls;
  }

  lemma EffectMerges(env: RenderEnv, run: AssistantRun, item: ModelItem)
    requires ChatItem(item)
    ensures Effect(env, run, item) == Merged(run, Effect(env, NoRun, item))
  {
    MergedWithNone(run);
    var one := Effect(env, NoRun, item);
    assert one.calls != [] ==> one.calls == [one.calls[0]];
    assert "" + one.text == one.text && run.text + "" == run.text && run.calls + [] == run.calls;
  }

  /** What items do to an open message is what they do alone, merged into it. */
  lemma {:induction false} EffectsMerge(env: RenderEnv, run: AssistantRun, items: seq<ModelItem>)
    requires ChatItems(items)
    ensures Effects(env, run, items) == Merged(run, Effects(env, NoRun, items))
    decreases |items|
  {
    if items == [] {
      MergedWithNone(run);
    } else {
      var one := Effect(env, NoRun, items[0]);
      EffectMerges(env, run, items[0]);
      EffectsMerge(env, Effect(env, run, items[0]), items[1..]);
      EffectsMerge(env, one, items[1..]);
      MergedTwice(run, one, Effects(env, NoRun, items[1..]));
    }
  }

  /** The second message's sealed object survives exactly when the first has none, or the same one. */
  lemma SecondSealedSurvives(a: AssistantRun, b: AssistantRun)
    ensures Merged(a, b).sealed == b.sealed <==> a.sealed.None? || a.sealed == b.sealed
  {
  }

  /** Two answers with nothing between them: their blocks are one run, and become at most one message. */
  lemma {:induction false} NeighboursMerge(env: RenderEnv, all: seq<Block>, at: nat, mid: nat, end: nat,
                                           first: ModelOutput, second: ModelOutput,
                                           a: seq<Block>, b: seq<Block>)
    requires ChatItems(first.items) && CommittedAs(env, first, a) && StandsAt(all, at, a) && mid == at + |a|
    requires ChatItems(second.items) && CommittedAs(env, second, b) && StandsAt(all, mid, b) && end == mid + |b|
    requires AnyShows(env, first.items) && AnyShows(env, second.items) && WalkTo(env, all, at).run.None?
    ensures var c := WalkTo(env, all, at);
            WalkTo(env, all, end) ==
            Chat(c.messages + c.hoisted, Some(Merged(Effects(env, NoRun, first.items), Effects(env, NoRun, second.items))), [])
  {
    AnswerWalks(env, all, at, mid, first, a);
    AnswerWalks(env, all, mid, end, second, b);
    var run, c := Effects(env, NoRun, first.items), WalkTo(env, all, at);
    EffectsMerge(env, run, second.items);
    assert c.messages + c.hoisted + [] == c.messages + c.hoisted;
  }

  function Plain(text: string): Json {
    Obj(map["role" := Str("assistant"), "content" := Str(text)])
  }

  lemma PlainReads(env: RenderEnv, text: string, classify: string -> StopReason, raw: string)
    requires text != "" && !env.names.blank(text)
    ensures ParseMessage(env.codec, classify, Plain(text), raw, None).Ok? && TextOf(Plain(text)) == Ok(text)
    ensures CallsOf(Plain(text)) == [] && MessageResidue(Plain(text), text) == map[]
    ensures Returns(env, Plain(text))
  {
    var message := Plain(text);
    assert Get(message, "content") == Some(Str(text)) && Get(message, "tool_calls").None?;
    assert MessageResidue(message, text) == map[];
  }

  /** A plain message alone: a run of its text, which is the message again. */
  lemma PlainAlone(env: RenderEnv, text: string, classify: string -> StopReason, raw: string)
    requires text != "" && !env.names.blank(text)
    ensures var x := ParseMessage(env.codec, classify, Plain(text), raw, None);
            && x.Ok? && ChatItems(x.value.items) && SentBack(env, x.value.items) == Some(Plain(text))
            && Effects(env, NoRun, x.value.items) == AssistantRun(text, None, [])
  {
    PlainReads(env, text, classify, raw);
    MessageEffects(env, Plain(text), classify, raw, None);
    MessageComesBack(env, Plain(text), classify, raw, None);
  }

  /** Two plain messages become one: each comes back alone, and next to each other neither does. */
  lemma {:induction false} TwoBecomeOne(env: RenderEnv, a: string, b: string, classify: string -> StopReason, raw: string)
    requires a != "" && b != "" && !env.names.blank(a) && !env.names.blank(b)
    ensures var x, y := ParseMessage(env.codec, classify, Plain(a), raw, None), ParseMessage(env.codec, classify, Plain(b), raw, None);
            && x.Ok? && y.Ok? && ChatItems(x.value.items) && ChatItems(y.value.items)
            && SentBack(env, x.value.items) == Some(Plain(a)) && SentBack(env, y.value.items) == Some(Plain(b))
            && AssistantMessage(Merged(Effects(env, NoRun, x.value.items), Effects(env, NoRun, y.value.items))) ==
               Some(Plain(a + b))
  {
    PlainAlone(env, a, classify, raw);
    PlainAlone(env, b, classify, raw);
    JoinedIsPlain(a, b);
  }

  lemma JoinedIsPlain(a: string, b: string)
    requires a != "" && b != ""
    ensures AssistantMessage(Merged(AssistantRun(a, None, []), AssistantRun(b, None, []))) == Some(Plain(a + b))
  {
    var none: seq<Json> := [];
    assert none + none == none && a + b != "";
  }

  // -- what keeps them apart ------------------------------------------------------------------------

  /** The open message has something to send. */
  predicate Speaks(c: Chat) {
    c.run.Some? && AssistantMessage(c.run.value).Some? && c.hoisted == []
  }

  predicate AllStayOpen(segments: seq<Segment>) {
    forall k :: 0 <= k < |segments| ==> StaysOpen(segments[k])
  }

  lemma {:induction false} SpeaksOn(env: RenderEnv, c: Chat, segments: seq<Segment>)
    requires Speaks(c) && segments != [] && StaysOpen(segments[0])
    ensures Taken(segments) == 1
    ensures var next := Step(env, REPLAY, c, segments); Speaks(next) && next.messages == c.messages
  {
    assert c.messages + [] == c.messages;
  }

  /** An open message is still open after more segments exactly when none of them ends it. */
  lemma {:induction false} OpenUntilClosed(env: RenderEnv, c: Chat, segments: seq<Segment>)
    requires Speaks(c)
    ensures Walk(env, REPLAY, c, segments).messages == c.messages <==> AllStayOpen(segments)
    ensures AllStayOpen(segments) ==> Speaks(Walk(env, REPLAY, c, segments))
    decreases |segments|
  {
    if segments == [] {
    } else if StaysOpen(segments[0]) {
      SpeaksOn(env, c, segments);
      OpenUntilClosed(env, Step(env, REPLAY, c, segments), segments[1..]);
      assert AllStayOpen(segments) <==> AllStayOpen(segments[1..]) by {
        assert segments == [segments[0]] + segments[1..];
      }
    } else {
      ClosingSends(env, c, segments);
      MessagesOnlyGrow(env, Step(env, REPLAY, c, segments), segments[Taken(segments)..]);
    }
  }

  lemma ClosingSends(env: RenderEnv, c: Chat, segments: seq<Segment>)
    requires Speaks(c) && segments != [] && Closes(segments[0])
    ensures |c.messages| < |Step(env, REPLAY, c, segments).messages|
  {
    assert |Flushed(c, segments[0]).messages| == |c.messages| + 1;
  }

  // -- two answers in one request -----------------------------------------------------------------

  /** What segments that stay open add to a message. */
  function Gained(env: RenderEnv, segments: seq<Segment>): AssistantRun
    requires AllStayOpen(segments)
  {
    if segments == [] then NoRun
    else Merged(if IsBlank(env, segments[0]) then NoRun else RunOf(StepOne(env, REPLAY, Start, segments[0])),
                Gained(env, segments[1..]))
  }

  lemma {:induction false} OpenStep(env: RenderEnv, messages: seq<Json>, run: AssistantRun, s: Segment)
    requires StaysOpen(s) && !IsBlank(env, s)
    ensures var c := Chat(messages, Some(run), []);
            StepOne(env, REPLAY, Flushed(c, s), s) == Chat(messages, Some(Merged(run, RunOf(StepOne(env, REPLAY, Start, s)))), [])
  {
    MergedWithNone(run);
    assert messages + [] == messages;
    match s
    case TextSegment(_, text, _, _, _) =>
      assert "" + text == text;
    case SealedSegment(_) =>
    case CallSegment(wireId, name, arguments, wire) =>
      var none: seq<Json> := [];
      assert none + [CallJson(env.codec, wireId, name, arguments, wire)] ==
             [CallJson(env.codec, wireId, name, arguments, wire)];
  }

  /** An open message gains what follows, until something closes it. */
  lemma {:induction false} OpenGains(env: RenderEnv, messages: seq<Json>, run: AssistantRun, segments: seq<Segment>)
    requires AllStayOpen(segments)
    ensures Walk(env, REPLAY, Chat(messages, Some(run), []), segments) ==
            Chat(messages, Some(Merged(run, Gained(env, segments))), [])
    decreases |segments|
  {
    MergedWithNone(run);
    if segments != [] {
      var s, rest := segments[0], segments[1..];
      assert AllStayOpen(rest);
      if IsBlank(env, s) {
        MergedWithNone(Gained(env, rest));
        OpenGains(env, messages, run, rest);
      } else {
        var one := RunOf(StepOne(env, REPLAY, Start, s));
        OpenStep(env, messages, run, s);
        OpenGains(env, messages, Merged(run, one), rest);
        MergedTwice(run, one, Gained(env, rest));
      }
    }
  }

  /** A message that says something still does when more is merged into it. */
  lemma {:induction false} StillSpeaks(a: AssistantRun, b: AssistantRun)
    requires AssistantMessage(a).Some?
    ensures AssistantMessage(Merged(a, b)).Some?
  {
  }

  /** The first segment that closes the message, before which it gains and at which it is sent. */
  lemma {:induction false} ClosedWithin(env: RenderEnv, messages: seq<Json>, run: AssistantRun, segments: seq<Segment>)
    returns (k: nat)
    requires AssistantMessage(run).Some? && !AllStayOpen(segments)
    ensures k < |segments| && AllStayOpen(segments[..k]) && Closes(segments[k])
    ensures var sent := AssistantMessage(Merged(run, Gained(env, segments[..k])));
            sent.Some? && messages + [sent.value] <= Walk(env, REPLAY, Chat(messages, Some(run), []), segments).messages
  {
    k := FirstClosing(segments);
    var open, last := segments[..k], segments[k..];
    Sequences.Halves(segments, k);
    assert SeamFree(open, last);
    WalkJoins(env, REPLAY, Chat(messages, Some(run), []), open, last);
    OpenGains(env, messages, run, open);
    var gained := Merged(run, Gained(env, open));
    StillSpeaks(run, Gained(env, open));
    ClosingKeeps(env, Chat(messages, Some(gained), []), last);
  }

  lemma {:induction false} FirstClosing(segments: seq<Segment>) returns (k: nat)
    requires !AllStayOpen(segments)
    ensures k < |segments| && AllStayOpen(segments[..k]) && Closes(segments[k])
    decreases |segments|
  {
    if Closes(segments[0]) {
      k := 0;
    } else {
      assert !AllStayOpen(segments[1..]) by {
        var j :| 0 <= j < |segments| && Closes(segments[j]);
        assert segments[1..][j - 1] == segments[j];
      }
      var rest := FirstClosing(segments[1..]);
      k := rest + 1;
      forall i | 0 <= i < k ensures StaysOpen(segments[..k][i]) {
        assert i > 0 ==> segments[1..][..rest][i - 1] == segments[i];
      }
    }
  }

  lemma {:induction false} ClosingKeeps(env: RenderEnv, c: Chat, segments: seq<Segment>)
    requires Speaks(c) && segments != [] && Closes(segments[0])
    ensures c.messages + [AssistantMessage(c.run.value).value] <= Walk(env, REPLAY, c, segments).messages
  {
    var next := Step(env, REPLAY, c, segments);
    assert c.messages + [] == c.messages;
    assert c.messages + [AssistantMessage(c.run.value).value] <= next.messages;
    MessagesOnlyGrow(env, next, segments[Taken(segments)..]);
  }

  /** The messages of a frame around two of its answers, and the message each answer is in. */
  ghost predicate Shared(env: RenderEnv, messages: seq<Json>, first: AssistantRun, between: seq<Segment>,
                         second: AssistantRun, here: Chat)
    requires AllStayOpen(between)
  {
    var one := Merged(Merged(first, Gained(env, between)), second);
    here == Chat(messages, Some(one), []) && AssistantMessage(one).Some?
  }

  /** The first answer's message was sent before the second's was begun. */
  ghost predicate Apart(env: RenderEnv, messages: seq<Json>, first: AssistantRun, between: seq<Segment>,
                        second: AssistantRun, here: Chat)
  {
    && (exists k :: 0 <= k < |between| && SentAt(env, messages, first, between, k, here.messages))
    && here.run.Some? && here.hoisted == [] && exists open :: here.run == Some(Merged(open, second))
  }

  predicate SentAt(env: RenderEnv, messages: seq<Json>, first: AssistantRun, between: seq<Segment>, k: nat,
                   later: seq<Json>)
    requires k < |between|
  {
    && AllStayOpen(between[..k]) && Closes(between[k])
    && var sent := AssistantMessage(Merged(first, Gained(env, between[..k])));
       sent.Some? && messages + [sent.value] <= later
  }

  lemma {:induction false} BetweenWalks(env: RenderEnv, all: seq<Block>, at: nat, mid: nat, next: nat,
                                        first: ModelOutput, a: seq<Block>)
    requires ChatItems(first.items) && CommittedAs(env, first, a) && StandsAt(all, at, a) && mid == at + |a|
    requires AnyShows(env, first.items) && mid <= next <= |all|
    ensures WalkTo(env, all, next) == Walk(env, REPLAY, WalkTo(env, all, mid), SegmentsOf(env, all, mid, next, CHAT, false))
  {
    AnswerSegments(env, all, at, mid, first, a);
    var early, middle := SegmentsOf(env, all, 0, at, CHAT, false), SegmentsOf(env, all, at, mid, CHAT, false);
    var between := SegmentsOf(env, all, mid, next, CHAT, false);
    SegmentsJoin(env, all, 0, at, mid, CHAT, false);
    SegmentsJoin(env, all, 0, mid, next, CHAT, false);
    NoUserSeamsAfter(middle, first.items, at, early, between);
    WalkJoins(env, REPLAY, Start, early + middle, between);
  }

  /**
   Two committed answers with segments between them: they share one message exactly when none of
   those segments closes the first's. Then it holds the texts and calls of both and of what stands
   between; otherwise the first's message is sent before the second's is begun.
   */
  lemma {:induction false} TwoAnswers(env: RenderEnv, all: seq<Block>, at: nat, mid: nat, next: nat, end: nat,
                                      first: ModelOutput, second: ModelOutput, a: seq<Block>, b: seq<Block>)
    requires ChatItems(first.items) && CommittedAs(env, first, a) && StandsAt(all, at, a) && mid == at + |a|
    requires ChatItems(second.items) && CommittedAs(env, second, b)
    requires mid <= next && StandsAt(all, next, b) && end == next + |b|
    requires AnyShows(env, first.items) && AnyShows(env, second.items)
    requires WalkTo(env, all, at).run.None? && SentBack(env, first.items).Some?
    ensures var c, here, between := WalkTo(env, all, at), WalkTo(env, all, end), SegmentsOf(env, all, mid, next, CHAT, false);
            var messages, run, more := c.messages + c.hoisted, Effects(env, NoRun, first.items), Effects(env, NoRun, second.items);
            && (here.messages == messages <==> AllStayOpen(between))
            && (if AllStayOpen(between) then Shared(env, messages, run, between, more, here)
                else Apart(env, messages, run, between, more, here))
  {
    var c, between := WalkTo(env, all, at), SegmentsOf(env, all, mid, next, CHAT, false);
    var messages, run := c.messages + c.hoisted, Effects(env, NoRun, first.items);
    AnswerWalks(env, all, at, mid, first, a);
    BetweenWalks(env, all, at, mid, next, first, a);
    AnswerWalks(env, all, next, end, second, b);
    var there := WalkTo(env, all, next);
    EffectsMerge(env, RunOf(there), second.items);
    if AllStayOpen(between) {
      OpenGains(env, messages, run, between);
      assert messages + [] == messages;
      StillSpeaks(run, Gained(env, between));
      StillSpeaks(Merged(run, Gained(env, between)), Effects(env, NoRun, second.items));
    } else {
      var k := ClosedWithin(env, messages, run, between);
      assert there.messages <= WalkTo(env, all, end).messages;
      assert SentAt(env, messages, run, between, k, WalkTo(env, all, end).messages);
    }
  }

  /** The fields of a message that come from its sealed object alone. */
  function SealedFields(message: Json): map<string, Json>
    requires message.Obj?
  {
    message.fields - {"role", "content", "tool_calls"}
  }

  /** A message has the sealed object of its run and no other. */
  lemma {:induction false} MessageSealed(run: AssistantRun)
    requires AssistantMessage(run).Some?
    ensures AssistantMessage(run).value.Obj?
    ensures SealedFields(AssistantMessage(run).value) == ResidueObject(run.sealed) - {"role", "content", "tool_calls"}
  {
  }

  /** The sealed object of three runs merged is that of the first which has one. */
  lemma {:induction false} SealedWins(first: AssistantRun, between: AssistantRun, second: AssistantRun)
    ensures Merged(Merged(first, between), second).sealed == second.sealed
            <==> (first.sealed.None? || first.sealed == second.sealed)
                 && (first.sealed.Some? || between.sealed.None? || between.sealed == second.sealed)
  {
    SecondSealedSurvives(Merged(first, between), second);
  }

  function MessageOf(run: AssistantRun): seq<Json> {
    if AssistantMessage(run).Some? then [AssistantMessage(run).value] else []
  }

  /** One message follows `messages`, of everything from the first answer to the second. */
  ghost predicate OneMessage(messages: seq<Json>, one: AssistantRun, sent: seq<Json>) {
    AssistantMessage(one).Some? && messages + MessageOf(one) <= sent && AssistantMessage(one).value.Obj?
    && SealedFields(AssistantMessage(one).value) == ResidueObject(one.sealed) - {"role", "content", "tool_calls"}
  }

  /** The first answer's message follows `messages`, and the second's comes after it. */
  ghost predicate TwoMessages(env: RenderEnv, messages: seq<Json>, first: AssistantRun, between: seq<Segment>,
                              second: AssistantRun, sent: seq<Json>)
  {
    exists k: nat, later: seq<Json>, open: AssistantRun ::
      && k < |between| && SentAt(env, messages, first, between, k, later)
      && later + MessageOf(Merged(open, second)) <= sent
  }

  /**
   What is sent for two committed answers before a segment that is not the assistant's: one message
   exactly when no segment between them closes the first's, and it has the second's sealed object
   exactly when neither the first nor anything between has another.
   */
  lemma {:induction false} TwoAnswersSent(env: RenderEnv, all: seq<Block>, at: nat, mid: nat, next: nat, end: nat,
                                          first: ModelOutput, second: ModelOutput, a: seq<Block>, b: seq<Block>)
    requires ChatItems(first.items) && CommittedAs(env, first, a) && StandsAt(all, at, a) && mid == at + |a|
    requires ChatItems(second.items) && CommittedAs(env, second, b)
    requires mid <= next && StandsAt(all, next, b) && end == next + |b|
    requires AnyShows(env, first.items) && AnyShows(env, second.items)
    requires WalkTo(env, all, at).run.None? && SentBack(env, first.items).Some?
    requires var last := SegmentsOf(env, all, end, |all|, CHAT, false); last == [] || Closes(last[0])
    ensures var c, between := WalkTo(env, all, at), SegmentsOf(env, all, mid, next, CHAT, false);
            var messages, run, more := c.messages + c.hoisted, Effects(env, NoRun, first.items), Effects(env, NoRun, second.items);
            var sent := Finished(WalkTo(env, all, |all|));
            && (AllStayOpen(between) <==> WalkTo(env, all, end).messages == messages)
            && (AllStayOpen(between) ==>
                  var gained := Gained(env, between);
                  var one := Merged(Merged(run, gained), more);
                  && OneMessage(messages, one, sent)
                  && (one.sealed == more.sealed
                      <==> (run.sealed.None? || run.sealed == more.sealed)
                           && (run.sealed.Some? || gained.sealed.None? || gained.sealed == more.sealed)))
            && (!AllStayOpen(between) ==> TwoMessages(env, messages, run, between, more, sent))
  {
    var c, here, between := WalkTo(env, all, at), WalkTo(env, all, end), SegmentsOf(env, all, mid, next, CHAT, false);
    var messages, run, more := c.messages + c.hoisted, Effects(env, NoRun, first.items), Effects(env, NoRun, second.items);
    var last := SegmentsOf(env, all, end, |all|, CHAT, false);
    TwoAnswers(env, all, at, mid, next, end, first, second, a, b);
    BetweenWalks(env, all, next, end, |all|, second, b);
    ClosedMessage(env, here, last, here.run.value);
    if AllStayOpen(between) {
      var gained := Gained(env, between);
      MessageSealed(Merged(Merged(run, gained), more));
      SealedWins(run, gained, more);
    } else {
      var k: nat :| k < |between| && SentAt(env, messages, run, between, k, here.messages);
      var open :| here.run == Some(Merged(open, more));
      assert SentAt(env, messages, run, between, k, here.messages)
             && here.messages + MessageOf(Merged(open, more)) <= Finished(WalkTo(env, all, |all|));
    }
  }
}
