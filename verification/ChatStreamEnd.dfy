/**
 The end of a Chat stream: `[DONE]` answers with what the batch parser makes of the whole message,
 but for two kinds of call on which the two differ.
 */
module ChatStreamEnd {
  import opened Wrappers
  import opened Sequences
  import opened Mealy
  import opened Json
  import opened Model
  import opened StreamCommon
  import opened ChatParse
  import opened ChatStream
  import opened ChatStreamProof
  import opened Decoder
  import Sse
  import Utf8

  predicate Limited(env: Env, st: State) {
    st.finish.Some? && env.classify(st.finish.value).MaxTokens?
  }

  // -- reading the assembled message back ---------------------------------------------------

  lemma CallReadBack(env: Env, tool: Tool, cutOff: bool)
    ensures var r := ParseCall(env.codec, CallJson(tool), cutOff);
            && (r.Ok? <==> tool.id.Some? && (Complete(env, tool) || cutOff))
            && (r.Ok? && !Complete(env, tool) ==> r.value == [])
  {
    var call := CallJson(tool);
    assert StrOf(call, "id") == tool.id && Get(call, "function") == Some(call.fields["function"]);
    assert StrOf(Function(call), "name") == Some(tool.name);
    assert AsStr(Get(Function(call), "arguments")) == Some(tool.arguments);
  }

  /** Complete calls parse the same whether or not the limit was hit. */
  lemma CompleteCalls(codec: Codec, calls: seq<Json>)
    requires ParseCalls(codec, calls, false).Ok?
    ensures ParseCalls(codec, calls, true) == ParseCalls(codec, calls, false)
  {
    if calls != [] {
      var past, last := calls[..|calls| - 1], calls[|calls| - 1];
      assert past + [last] == calls;
      CallsSnoc(codec, past, last, true);
      CallsSnoc(codec, past, last, false);
    }
  }

  /** The calls that stay are complete, and leaving out a cut-off one changes nothing. */
  lemma KeptCalls(env: Env, tools: seq<Tool>, limited: bool)
    requires ParseCalls(env.codec, CallsJson(tools), limited).Ok?
    ensures var kept := Kept(env, tools, limited);
            && ParseCalls(env.codec, CallsJson(kept), false).Ok?
            && ParseCalls(env.codec, CallsJson(kept), limited) == ParseCalls(env.codec, CallsJson(tools), limited)
  {
    if tools != [] {
      var past, last := tools[..|tools| - 1], tools[|tools| - 1];
      var before := ParseCalls(env.codec, CallsJson(past), false);
      CallsSnoc(env.codec, CallsJson(past), CallJson(last), limited);
      CallsSnoc(env.codec, CallsJson(past), CallJson(last), false);
      CallReadBack(env, last, limited);
      CallReadBack(env, last, false);
      if Complete(env, last) {
        CompleteCall(env.codec, CallJson(last));
      } else {
        CompleteCalls(env.codec, CallsJson(past));
        assert before.value + [] == before.value;
      }
    }
  }

  lemma SameItems(text: string, reasoning: string, a: seq<Tool>, b: seq<Tool>)
    ensures MessageItems(MessageJson(text, reasoning, a), text) == MessageItems(MessageJson(text, reasoning, b), text)
  {
    assert MessageResidue(MessageJson(text, reasoning, a), text) == MessageResidue(MessageJson(text, reasoning, b), text);
  }

  lemma {:induction false} MessageReadBack(text: string, reasoning: string, tools: seq<Tool>)
    ensures var message := MessageJson(text, reasoning, tools);
            && TextOf(message) == Ok(text) && CallsOf(message) == CallsJson(tools)
            && StrOf(message, "reasoning_content") == (if reasoning == "" then None else Some(reasoning))
  {
  }

  lemma ResponseReadBack(codec: Codec, classify: string -> StopReason, message: Json, finish: string, usage: Option<Fields>)
    ensures ParseResponse(codec, classify, ResponseJson(message, finish, usage)) ==
            ParseMessage(codec, classify, message, finish, UsageJson(usage))
  {
    var response := ResponseJson(message, finish, usage);
    var choice := Obj(map["message" := message, "finish_reason" := Str(finish)]);
    assert Get(response, "choices") == Some(Arr([choice])) && ChoiceOf(response) == Some(choice);
    assert Get(choice, "message") == Some(message) && StrOf(choice, "finish_reason") == Some(finish);
  }

  function UsageJson(usage: Option<Fields>): Option<Json> {
    if usage.Some? then Some(Obj(usage.value)) else None
  }

  /** Two messages that differ only in calls that parse alike are parsed alike. */
  lemma SameMessage(env: Env, st: State, a: seq<Tool>, b: seq<Tool>)
    requires st.finish.Some?
    requires ParseCalls(env.codec, CallsJson(a), Limited(env, st)) == ParseCalls(env.codec, CallsJson(b), Limited(env, st))
    ensures Answer(env, st, a) == Answer(env, st, b)
  {
    SameItems(st.text, st.reasoning, a, b);
    MessageReadBack(st.text, st.reasoning, a);
    MessageReadBack(st.text, st.reasoning, b);
    ResponseReadBack(env.codec, env.classify, MessageJson(st.text, st.reasoning, a), st.finish.value, UsageOf(st));
    ResponseReadBack(env.codec, env.classify, MessageJson(st.text, st.reasoning, b), st.finish.value, UsageOf(st));
  }

  /** The batch parse of the message with the given calls. */
  function Answer(env: Env, st: State, tools: seq<Tool>): Result<ModelOutput, ErrorKind>
    requires st.finish.Some?
  {
    ParseResponse(env.codec, env.classify,
                  ResponseJson(MessageJson(st.text, st.reasoning, tools), st.finish.value, UsageOf(st)))
  }

  lemma AnswerNeedsCalls(env: Env, st: State, tools: seq<Tool>)
    requires st.finish.Some?
    ensures Answer(env, st, tools).Ok? <==> ParseCalls(env.codec, CallsJson(tools), Limited(env, st)).Ok?
  {
    MessageReadBack(st.text, st.reasoning, tools);
    ResponseReadBack(env.codec, env.classify, MessageJson(st.text, st.reasoning, tools), st.finish.value, UsageOf(st));
  }

  // -- stream and batch ---------------------------------------------------------------------

  predicate Identified(tools: seq<Tool>) {
    forall i :: 0 <= i < |tools| ==> tools[i].id.Some?
  }

  predicate AllComplete(env: Env, tools: seq<Tool>) {
    forall i :: 0 <= i < |tools| ==> Complete(env, tools[i])
  }

  predicate AllSendable(env: Env, tools: seq<Tool>) {
    forall i :: 0 <= i < |tools| ==> Sendable(env, tools[i])
  }

  lemma KeptSnoc(env: Env, past: seq<Tool>, last: Tool, limited: bool)
    ensures Identified(past + [last]) <==> Identified(past) && last.id.Some?
    ensures AllComplete(env, Kept(env, past + [last], limited)) <==>
            AllComplete(env, past) && (Complete(env, last) || limited)
  {
    var tools := past + [last];
    assert tools[..|tools| - 1] == past && tools[|tools| - 1] == last;
    assert forall i :: 0 <= i < |past| ==> tools[i] == past[i];
  }

  lemma CallsJsonSnoc(past: seq<Tool>, last: Tool)
    ensures CallsJson(past + [last]) == CallsJson(past) + [CallJson(last)]
  {
    var tools := past + [last];
    assert tools[..|tools| - 1] == past && tools[|tools| - 1] == last;
  }

  /** The batch parser asks every call for an id, and every call that stays for complete arguments. */
  lemma {:induction false} CallsParseExactly(env: Env, tools: seq<Tool>, limited: bool)
    ensures ParseCalls(env.codec, CallsJson(tools), limited).Ok? <==>
            Identified(tools) && AllComplete(env, Kept(env, tools, limited))
    decreases |tools|
  {
    if tools != [] {
      var past, last := tools[..|tools| - 1], tools[|tools| - 1];
      SplitLast(tools);
      CallsParseExactly(env, past, false);
      KeptSnoc(env, past, last, limited);
      CallsJsonSnoc(past, last);
      CallsSnoc(env.codec, CallsJson(past), CallJson(last), limited);
      CallReadBack(env, last, limited);
    }
  }

  lemma BatchAccepts(env: Env, st: State)
    requires st.finish.Some?
    ensures Batch(env, st).Ok? <==> Identified(st.tools) && AllComplete(env, Kept(env, st.tools, Limited(env, st)))
    ensures Batch(env, st).Err? ==> Batch(env, st) == Err(Undecodable)
  {
    var calls := ParseCalls(env.codec, CallsJson(st.tools), Limited(env, st));
    AnswerNeedsCalls(env, st, st.tools);
    CallsParseExactly(env, st.tools, Limited(env, st));
    CallsErrKind(env.codec, CallsJson(st.tools), Limited(env, st));
    MessageReadBack(st.text, st.reasoning, st.tools);
    ResponseReadBack(env.codec, env.classify, MessageJson(st.text, st.reasoning, st.tools), st.finish.value, UsageOf(st));
  }

  lemma {:induction false} StreamAccepts(env: Env, st: State)
    requires st.finish.Some?
    ensures Finish(env, st).Ok? <==> AllSendable(env, Kept(env, st.tools, Limited(env, st)))
    ensures Finish(env, st).Err? ==> Finish(env, st) == Err(Undecodable)
  {
    var kept := Kept(env, st.tools, Limited(env, st));
    if AllSendable(env, kept) {
      AnswerNeedsCalls(env, st, kept);
      CallsParseExactly(env, kept, Limited(env, st));
      assert AllComplete(env, Kept(env, kept, Limited(env, st)));
    } else {
      var i :| 0 <= i < |kept| && !Sendable(env, kept[i]);
    }
  }

  /** Where both accept, they give the same output. */
  lemma BothAccept(env: Env, st: State)
    requires Finish(env, st).Ok? && Batch(env, st).Ok?
    ensures Finish(env, st) == Batch(env, st)
  {
    StreamAccepts(env, st);
    AnswerNeedsCalls(env, st, st.tools);
    KeptCalls(env, st.tools, Limited(env, st));
    SameMessage(env, st, Kept(env, st.tools, Limited(env, st)), st.tools);
  }

  /** The batch parser has all it asks for, but a call that stays has no name. */
  predicate NamelessCall(env: Env, st: State) {
    var kept := Kept(env, st.tools, Limited(env, st));
    Identified(st.tools) && AllComplete(env, kept) && exists i :: 0 <= i < |kept| && kept[i].name == ""
  }

  /** All is well but for a last call, cut off by the limit, that never got an id. */
  predicate LostCall(env: Env, st: State) {
    var kept := Kept(env, st.tools, Limited(env, st));
    |kept| < |st.tools| && st.tools[|st.tools| - 1].id.None? && AllSendable(env, kept)
  }

  /**
   The stream answers what the batch parser makes of the whole message, in every state, except on
   a call that stays without a name, which only the stream refuses, and on a last call cut off
   before its id, which only the stream leaves out.
   */
  lemma {:induction false} StreamEqualsBatch(env: Env, st: State)
    ensures Finish(env, st) == Batch(env, st) <==> st.finish.None? || (!NamelessCall(env, st) && !LostCall(env, st))
    ensures st.finish.Some? && NamelessCall(env, st) ==> Batch(env, st).Ok? && Finish(env, st) == Err(Undecodable)
    ensures st.finish.Some? && LostCall(env, st) ==> Finish(env, st).Ok? && Batch(env, st) == Err(Undecodable)
  {
    if st.finish.Some? {
      var kept := Kept(env, st.tools, Limited(env, st));
      StreamAccepts(env, st);
      BatchAccepts(env, st);
      if Finish(env, st).Ok? && Batch(env, st).Ok? {
        BothAccept(env, st);
        assert forall i :: 0 <= i < |kept| ==> Sendable(env, kept[i]);
      } else {
        AcceptanceDiffers(env, st);
      }
    }
  }

  /** Being sendable is being identified, complete and named; only a call left out escapes the batch parser. */
  lemma AcceptanceDiffers(env: Env, st: State)
    ensures var kept := Kept(env, st.tools, Limited(env, st));
            var stream, batch := AllSendable(env, kept), Identified(st.tools) && AllComplete(env, kept);
            && (NamelessCall(env, st) <==> batch && !stream)
            && (LostCall(env, st) <==> stream && !batch)
  {
    var kept := Kept(env, st.tools, Limited(env, st));
    if AllSendable(env, kept) {
      assert forall i :: 0 <= i < |kept| ==> Sendable(env, kept[i]);
      assert AllComplete(env, kept) && Identified(kept);
      if |kept| < |st.tools| {
        assert forall i :: 0 <= i < |kept| ==> st.tools[i] == kept[i];
      }
    } else {
      var i :| 0 <= i < |kept| && !Sendable(env, kept[i]);
      assert kept[i] == st.tools[i];
    }
  }

  // -- the assembler behind the decoder -----------------------------------------------------

  const DONE := "[DONE]"

  function AtDone(env: Env, st: State): Reaction {
    var output :- Finish(env, st);
    Ok((st.(usage := if st.hasUsage then map[] else st.usage), [Done(output)]))
  }

  function OnEvent(env: Env, st: State, e: Sse.SseEvent): Reaction {
    if AsText(e.data) == DONE then AtDone(env, st)
    else
      var v := env.codec.parse(AsText(e.data));
      if v.None? then Err(Undecodable) else Step(env, st, v.value)
  }

  function Assembling(env: Env): Assembler<State> {
    (st, e) => OnEvent(env, st, e)
  }

  lemma {:induction false} CallsAreNotDone(env: Env, st: State, calls: seq<Json>, out: seq<StreamDelta>)
    requires !HasDone(out)
    ensures TakeCalls(env, st, calls, out).Ok? ==> !HasDone(TakeCalls(env, st, calls, out).value.1)
    decreases |calls|
  {
    if calls != [] {
      var next := TakeCall(env, st, calls[0]);
      if next.Ok? {
        DoneAfter(out, [CallDelta(calls[0])]);
        CallsAreNotDone(env, next.value, calls[1..], out + [CallDelta(calls[0])]);
      }
    }
  }

  lemma {:induction false} EventsAreNotDone(env: Env, st: State, v: Json)
    ensures Step(env, st, v).Ok? ==> !HasDone(Step(env, st, v).value.1)
  {
    var named := TakeId(env, st, v);
    if Step(env, st, v).Ok? {
      StepParts(env, st, v);
      var chosen := Chosen(env, named.value, v);
      if ChoiceIn(v).Some? {
        var choice := ChoiceIn(v).value;
        ChoiceParts(env, named.value, choice);
        ChoiceIsNotDone(env, named.value, TextIn(DeltaOf(choice), "content"),
                        TextIn(DeltaOf(choice), "reasoning_content"), CallsIn(choice));
      }
      DoneAfter(chosen.value.1, UsageDeltas(Step(env, st, v).value.0, v));
    }
  }

  lemma {:induction false} ChoiceIsNotDone(env: Env, st: State, text: string, reasoning: string, calls: seq<Json>)
    ensures var r := TextThenCalls(env, st, text, reasoning, calls); r.Ok? ==> !HasDone(r.value.1)
  {
    var spoken := Charge(env, Spoken(st, text, reasoning), |text| + |reasoning|);
    if spoken.Ok? {
      CallsAreNotDone(env, spoken.value, calls, if text == "" then [] else [TextDelta(text)]);
    }
  }

  lemma {:induction false} ChatDoneLast(env: Env)
    ensures DeliversDoneLast(Assembling(env))
  {
    forall st, e | Assembling(env)(st, e).Ok? ensures DoneOnlyLast(Assembling(env)(st, e).value.1) {
      if AsText(e.data) != DONE {
        EventsAreNotDone(env, st, env.codec.parse(AsText(e.data)).value);
      }
    }
  }

  /** A framed event whose data is the JSON event `v`. */
  predicate Carries(env: Env, e: Sse.SseEvent, v: Json) {
    AsText(e.data) != DONE && env.codec.parse(AsText(e.data)) == Some(v)
  }

  /** The framed events carry the trace, one JSON event each. */
  predicate CarryAll(env: Env, events: seq<Sse.SseEvent>, es: seq<Json>) {
    |events| == |es| && forall k :: 0 <= k < |es| ==> Carries(env, events[k], es[k])
  }

  /** No event holds more deltas than the queue takes. */
  predicate FitsQueue(env: Env, es: seq<Json>, maxPending: nat)
    decreases |es|
  {
    es == [] || (FitsQueue(env, es[..|es| - 1], maxPending)
                 && |EventDeltas(env, es[..|es| - 1], es[|es| - 1])| <= maxPending)
  }

  lemma {:induction false} AssembleNext(env: Env, past: seq<Json>, v: Json, e: Sse.SseEvent, maxPending: nat)
    requires Legal(env, past) && Legal(env, past + [v]) && Carries(env, e, v)
    requires |EventDeltas(env, past, v)| <= maxPending
    ensures Assemble(Assembling(env), Expected(env, past), e, maxPending) ==
            Go(EventDeltas(env, past, v), Expected(env, past + [v]))
  {
    var es := past + [v];
    assert es[..|es| - 1] == past && es[|es| - 1] == v;
    TraceAgrees(env, past);
    EventAgrees(env, past, v);
    EventsAreNotDone(env, Expected(env, past), v);
    assert Assembling(env)(Expected(env, past), e) == Step(env, Expected(env, past), v);
  }

  /** What the trace gives its last event and the events before it. */
  lemma {:induction false} LastEvent(env: Env, events: seq<Sse.SseEvent>, es: seq<Json>, past: seq<Json>, maxPending: nat)
    requires CarryAll(env, events, es) && FitsQueue(env, es, maxPending) && Legal(env, es)
    requires es != [] && past == es[..|es| - 1]
    ensures var n := |es| - 1;
            && CarryAll(env, events[..n], past) && FitsQueue(env, past, maxPending) && Legal(env, past)
            && Carries(env, events[n], es[n]) && |EventDeltas(env, past, es[n])| <= maxPending
            && AllDeltas(env, es) == AllDeltas(env, past) + EventDeltas(env, past, es[n])
  {
  }

  lemma {:induction false} AssembleTrace(env: Env, events: seq<Sse.SseEvent>, es: seq<Json>, maxPending: nat)
    requires CarryAll(env, events, es) && FitsQueue(env, es, maxPending) && Legal(env, es)
    ensures AssembleAll(Assembling(env), Initial, events, maxPending) == Go(AllDeltas(env, es), Expected(env, es))
    decreases |es|
  {
    if es == [] {
      TraceAgrees(env, es);
    } else {
      var n := |es| - 1;
      var earlier, e, past, v := events[..n], events[n], es[..n], es[n];
      LastEvent(env, events, es, past, maxPending);
      SplitLast(events);
      SplitLast(es);
      AssembleTrace(env, earlier, past, maxPending);
      AssembleNext(env, past, v, e, maxPending);
      AssembleSnoc(Assembling(env), Initial, earlier, e, maxPending, AllDeltas(env, past), Expected(env, past));
    }
  }

  /**
   From bytes to `Done`: bytes that frame into a legal stream and `[DONE]` deliver the trace's
   deltas, and then the batch parser's output.
   */
  lemma {:induction false} BytesToDone(env: Env, lim: StreamLimits, bytes: Utf8.Bytes, events: seq<Sse.SseEvent>, es: seq<Json>,
                                       last: Sse.SseEvent)
    requires |bytes| <= lim.maxTotal && lim.maxPending > 0
    requires Run(FrameOf(lim), Sse.Fresh, bytes).out == events + [last]
    requires CarryAll(env, events, es)
    requires AsText(last.data) == DONE
    requires Legal(env, es) && FitsQueue(env, es, lim.maxPending)
    requires Batch(env, Expected(env, es)).Ok? && !NamelessCall(env, Expected(env, es))
    ensures ByteRun(Assembling(env), lim, Core(Sse.Fresh, Initial, 0), bytes) ==
            Halt(AllDeltas(env, es) + [Done(Batch(env, Expected(env, es)).value)], Finished)
  {
    var st := Expected(env, es);
    StreamEqualsBatch(env, st);
    AssembleTrace(env, events, es, lim.maxPending);
    AssembleSnoc(Assembling(env), Initial, events, last, lim.maxPending, AllDeltas(env, es), st);
    var done := [Done(Batch(env, st).value)];
    assert done[0].Done? && HasDone(done);
    assert Assemble(Assembling(env), st, last, lim.maxPending) == Halt(done, Finished);
    AssemblerEnds(FrameOf(lim), Assembling(env), lim, Core(Sse.Fresh, Initial, 0), bytes,
                  events + [last], AllDeltas(env, es) + done, Finished);
  }
}
