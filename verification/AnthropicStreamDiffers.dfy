/** A legal Anthropic stream that fails although the batch parser accepts the message it carries. */
module AnthropicStreamDiffers {
  import opened Wrappers
  import opened Json
  import opened AnthropicParse
  import opened StreamCommon
  import opened AnthropicStream
  import opened AnthropicStreamProof
  import opened AnthropicStreamEnd

  /** A call whose start already carries its whole input: no arguments. */
  const Wire: Json :=
    Obj(map["type" := Str("tool_use"), "id" := Str("a"), "name" := Str("f"), "input" := Obj(map[])])

  /** An argument delta that adds nothing. */
  const Nothing: Json := Obj(map["type" := Str("input_json_delta"), "partial_json" := Str("")])

  const Begin: Json := Obj(map["type" := Str("message_start"), "message" := Obj(map["content" := Arr([])])])
  const Open: Json := Obj(map["type" := Str("content_block_start"), "index" := Int(0), "content_block" := Wire])
  const Delta: Json := Obj(map["type" := Str("content_block_delta"), "index" := Int(0), "delta" := Nothing])
  const Shut: Json := Obj(map["type" := Str("content_block_stop"), "index" := Int(0)])
  const Reported: Json := Obj(map["type" := Str("message_delta"), "delta" := Obj(map["stop_reason" := Str("tool_use")])])

  const Trace: seq<Json> := [Begin, Open, Delta, Shut, Reported]

  /** The call's block while its arguments come in. */
  function Call(saw: bool, incomplete: bool, closed: bool): Block {
    Block(Wire, "", saw, incomplete, closed, Some(0))
  }

  function With(blocks: seq<Block>, reason: Option<string>, bytes: nat): State {
    State(true, reason.Some?, blocks, |blocks|, reason, map[], false, bytes)
  }

  lemma KnownFieldsAreFree(env: Env, fields: Fields, keys: seq<string>, known: set<string>)
    requires fields.Keys <= known
    ensures FieldsCost(env, fields, keys, known) == 0
  {
  }

  function WireCost(env: Env): nat {
    10 + Size(env.codec, Obj(map[]))
  }

  lemma WireReads(env: Env)
    ensures TypeOf(Wire).ToolUseBlock? && Openable(Wire) && OpenCost(env, Wire) == WireCost(env)
    ensures ParseBlock(Wire).Ok?
  {
    assert Get(Wire, "type") == Some(Str("tool_use")) && Get(Wire, "input") == Some(Obj(map[]));
    assert Get(Wire, "id") == Some(Str("a")) && Get(Wire, "name") == Some(Str("f"));
    KnownFieldsAreFree(env, Wire.fields, env.order(Wire.fields), KnownKeys(ToolUseBlock));
  }

  lemma NothingReads()
    ensures PieceOf(Nothing) == InputPiece && PieceText(Nothing) == "" && Fits(Wire, Nothing)
  {
    assert Get(Nothing, "type") == Some(Str("input_json_delta")) && Get(Nothing, "partial_json") == Some(Str(""));
    assert Get(Wire, "type") == Some(Str("tool_use"));
  }

  /** The machine goes from one state to the next on this event. */
  predicate Leads(env: Env, st: State, v: Json, next: State) {
    Step(env, st, v).Ok? && Step(env, st, v).value.0 == next
  }

  lemma {:induction false} BeginStep(env: Env)
    ensures Leads(env, Initial, Begin, With([], None, 0))
  {
    var message := Obj(map["content" := Arr([])]);
    assert Get(Begin, "type") == Some(Str("message_start")) && Get(Begin, "message") == Some(message);
    assert Get(message, "content") == Some(Arr([])) && Get(message, "stop_reason").None? && Get(message, "usage").None?;
  }

  lemma {:induction false} OpenStep(env: Env)
    requires env.maxItems > 0 && WireCost(env) <= env.maxOutput
    ensures Leads(env, With([], None, 0), Open, With([Call(false, false, false)], None, WireCost(env)))
  {
    assert Get(Open, "type") == Some(Str("content_block_start")) && Get(Open, "content_block") == Some(Wire);
    assert Get(Open, "index") == Some(Int(0));
    WireReads(env);
  }

  lemma {:induction false} DeltaStep(env: Env, bytes: nat)
    requires bytes <= env.maxOutput
    ensures Leads(env, With([Call(false, false, false)], None, bytes), Delta, With([Call(true, false, false)], None, bytes))
  {
    assert Get(Delta, "type") == Some(Str("content_block_delta")) && Get(Delta, "delta") == Some(Nothing);
    assert Get(Delta, "index") == Some(Int(0));
    NothingReads();
    assert Apply(Call(false, false, false), Nothing) == Call(true, false, false);
    assert [Call(false, false, false)][0 := Call(true, false, false)] == [Call(true, false, false)];
  }

  lemma {:induction false} ShutStep(env: Env, bytes: nat)
    requires env.codec.parse("").None?
    ensures Leads(env, With([Call(true, false, false)], None, bytes), Shut, With([Call(true, true, true)], None, bytes))
  {
    assert Get(Shut, "type") == Some(Str("content_block_stop")) && Get(Shut, "index") == Some(Int(0));
    assert [Call(true, false, false)][0 := Call(true, true, true)] == [Call(true, true, true)];
  }

  lemma {:induction false} ReportedStep(env: Env, bytes: nat)
    ensures Leads(env, With([Call(true, true, true)], None, bytes), Reported, With([Call(true, true, true)], Some("tool_use"), bytes))
  {
    var delta := Obj(map["stop_reason" := Str("tool_use")]);
    assert Get(Reported, "type") == Some(Str("message_delta")) && Get(Reported, "delta") == Some(delta);
    assert Get(delta, "stop_reason") == Some(Str("tool_use")) && Get(Reported, "usage").None?;
  }

  lemma {:induction false} RunSnoc(env: Env, past: seq<Json>, v: Json, st: State, next: State)
    requires RunTrace(env, past) == Ok(st) && Leads(env, st, v, next)
    ensures RunTrace(env, past + [v]) == Ok(next)
  {
    var es := past + [v];
    assert es[..|es| - 1] == past && es[|es| - 1] == v;
  }

  lemma {:induction false} FiveSteps(env: Env, e1: Json, e2: Json, e3: Json, e4: Json, e5: Json,
                                     s1: State, s2: State, s3: State, s4: State, s5: State)
    requires Leads(env, Initial, e1, s1) && Leads(env, s1, e2, s2) && Leads(env, s2, e3, s3)
    requires Leads(env, s3, e4, s4) && Leads(env, s4, e5, s5)
    ensures RunTrace(env, [e1, e2, e3, e4, e5]) == Ok(s5)
  {
    RunSnoc(env, [], e1, Initial, s1);
    RunSnoc(env, [] + [e1], e2, s1, s2);
    RunSnoc(env, [] + [e1] + [e2], e3, s2, s3);
    RunSnoc(env, [] + [e1] + [e2] + [e3], e4, s3, s4);
    RunSnoc(env, [] + [e1] + [e2] + [e3] + [e4], e5, s4, s5);
    assert [] + [e1] + [e2] + [e3] + [e4] + [e5] == [e1, e2, e3, e4, e5];
  }

  function Last(env: Env): State {
    With([Call(true, true, true)], Some("tool_use"), WireCost(env))
  }

  lemma {:induction false} TraceRuns(env: Env)
    requires env.codec.parse("").None? && env.maxItems > 0 && WireCost(env) <= env.maxOutput
    ensures RunTrace(env, Trace) == Ok(Last(env))
  {
    BeginStep(env);
    OpenStep(env);
    DeltaStep(env, WireCost(env));
    ShutStep(env, WireCost(env));
    ReportedStep(env, WireCost(env));
    var paid := WireCost(env);
    FiveSteps(env, Begin, Open, Delta, Shut, Reported,
              With([], None, 0), With([Call(false, false, false)], None, paid), With([Call(true, false, false)], None, paid),
              With([Call(true, true, true)], None, paid), Last(env));
  }

  lemma {:induction false} NoStopIn()
    ensures forall v :: v in Trace ==> KindOf(v) != Some(MessageStop)
  {
    assert Get(Begin, "type") == Some(Str("message_start")) && Get(Open, "type") == Some(Str("content_block_start"));
    assert Get(Delta, "type") == Some(Str("content_block_delta")) && Get(Shut, "type") == Some(Str("content_block_stop"));
    assert Get(Reported, "type") == Some(Str("message_delta"));
  }

  lemma {:induction false} EndedBy(env: Env, es: seq<Json>, st: State)
    requires RunTrace(env, es) == Ok(st) && (forall v :: v in es ==> KindOf(v) != Some(MessageStop))
    requires st.started && st.stopReason.Some? && AllClosed(st.blocks)
    ensures Legal(env, es) && Ended(es)
  {
    TraceAgrees(env, es);
    ClosedIsStopped(env, es);
  }

  lemma {:induction false} LastFails(env: Env, stop: Json)
    requires KindOf(stop) == Some(MessageStop) && !env.classify("tool_use").MaxTokens?
    ensures Step(env, Last(env), stop) == Err(Undecodable)
  {
    var blocks := Last(env).blocks;
    assert Step(env, Last(env), stop) == OnMessageStop(env, Last(env));
    assert Kept(env, blocks, "tool_use") == blocks && blocks[0].incomplete;
  }

  /**
   Five legal events that carry a whole call without arguments; the stream fails at the end, and
   the batch parser takes the message.
   */
  lemma {:induction false} EmptyArgumentsDiffer(env: Env, stop: Json)
    requires env.codec.parse("").None? && !env.classify("tool_use").MaxTokens?
    requires env.maxItems > 0 && WireCost(env) <= env.maxOutput && KindOf(stop) == Some(MessageStop)
    ensures Legal(env, Trace) && Ended(Trace) && RunTrace(env, Trace).Ok?
    ensures Batch(env, Trace, [Wire]).Ok?
    ensures Step(env, RunTrace(env, Trace).value, stop) == Err(Undecodable)
  {
    TraceRuns(env);
    NoStopIn();
    EndedBy(env, Trace, Last(env));
    WireReads(env);
    BatchAccepts(env, Trace, [Wire]);
    LastFails(env, stop);
  }
}
