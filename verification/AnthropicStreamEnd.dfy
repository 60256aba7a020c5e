/**
 The end of an Anthropic stream: `Done` carries what the batch parser makes of the whole
 message, and only a block the token limit cut off may be missing.
 */
module AnthropicStreamEnd {
  import opened Wrappers
  import opened Sequences
  import opened Mealy
  import opened Json
  import opened Model
  import opened AnthropicParse
  import opened StreamCommon
  import opened AnthropicStream
  import opened AnthropicStreamProof
  import opened Decoder
  import Sse
  import Utf8

  /** Block `i` ended with arguments that are not complete JSON. */
  predicate CutShort(env: Env, es: seq<Json>, i: nat) {
    var ds := DeltasFor(es, i);
    StopFor(es, i) && HasPiece(ds, InputPiece) && env.codec.parse(Pieces(ds, InputPiece)).None?
  }

  predicate Ended(es: seq<Json>) {
    HasStarted(es) && AllStopped(es) && Reason(es).Some?
  }

  /** The blocks that make the final content: all, or all but a last one cut off by the token limit. */
  function KeptCount(env: Env, es: seq<Json>): nat {
    var n := |Starts(es)|;
    if Reason(es).Some? && env.classify(Reason(es).value).MaxTokens? && n > 0 && CutShort(env, es, n - 1) then n - 1 else n
  }

  function FinalContent(env: Env, es: seq<Json>, n: nat): seq<Json>
    requires n <= |Starts(es)|
  {
    seq(n, i requires 0 <= i < n => RebuiltAt(env, es, i).wire)
  }

  function UsageAt(env: Env, es: seq<Json>): Option<Fields> {
    if Expected(env, es).hasUsage then Some(Expected(env, es).usage) else None
  }

  /** What `message_stop` must answer. */
  function Outcome(env: Env, es: seq<Json>): Result<ModelOutput, ErrorKind> {
    var n := KeptCount(env, es);
    if !Ended(es) || (exists i: nat :: i < n && CutShort(env, es, i)) then Err(Undecodable)
    else ParseResponse(env.classify, BatchResponse(FinalContent(env, es, n), Reason(es).value, UsageAt(env, es)))
  }

  lemma CutShortIsIncomplete(env: Env, es: seq<Json>, i: nat)
    requires i < |Starts(es)|
    ensures RebuiltAt(env, es, i).incomplete == CutShort(env, es, i)
  {
  }

  lemma {:induction false} KeptBlocks(env: Env, es: seq<Json>)
    requires Ended(es)
    ensures var kept := Kept(env, RebuiltBlocks(env, es), Reason(es).value);
            && Wires(kept) == FinalContent(env, es, KeptCount(env, es))
            && (AnyIncomplete(kept) <==> exists i: nat :: i < KeptCount(env, es) && CutShort(env, es, i))
  {
    var blocks, n := RebuiltBlocks(env, es), KeptCount(env, es);
    forall i: nat | i < |blocks| ensures blocks[i].incomplete == CutShort(env, es, i) {
      CutShortIsIncomplete(env, es, i);
    }
    var kept := Kept(env, blocks, Reason(es).value);
    assert kept == blocks[..n];
    if i: nat :| i < n && CutShort(env, es, i) {
      assert kept[i].incomplete;
    }
    assert Wires(kept) == FinalContent(env, es, n);
  }

  /** An incomplete block is dropped only as the last one under the token limit; else the stream fails. */
  lemma {:induction false} EndAgrees(env: Env, es: seq<Json>, v: Json)
    requires KindOf(v) == Some(MessageStop)
    ensures var r := Step(env, Expected(env, es), v);
            match Outcome(env, es)
            case Err(kind) => r == Err(kind)
            case Ok(output) => r.Ok? && r.value.1 == [Done(output)]
  {
    var st := Expected(env, es);
    assert Step(env, st, v) == OnMessageStop(env, st);
    ClosedIsStopped(env, es);
    if Ended(es) {
      KeptBlocks(env, es);
    }
  }

  // -- the stream of a whole message ----------------------------------------------------

  predicate SameExcept(a: Json, b: Json, keys: set<string>) {
    a.Obj? && b.Obj? && a.fields - keys == b.fields - keys
  }

  /**
   `w` and the deltas `ds` are a cutting of the complete block `b`: its texts, citations or
   arguments divided anywhere between the start and any number of deltas, where argument deltas
   that join to nothing leave the input the start carried.
   */
  predicate Fragments(env: Env, b: Json, w: Json, ds: seq<Json>) {
    && Openable(w)
    && match TypeOf(w)
       case TextBlock =>
         && SameExcept(b, w, {"text", "citations"}) && !HasPiece(ds, InputPiece)
         && StrOf(b, "text") == Some(TextIn(w, "text") + Pieces(ds, TextPiece))
         && Get(b, "citations") == (if HasPiece(ds, CitationPiece) then Cited(w, ds) else Get(w, "citations"))
       case ThinkingBlock =>
         && SameExcept(b, w, {"thinking", "signature"}) && !HasPiece(ds, InputPiece)
         && StrOf(b, "thinking") == Some(TextIn(w, "thinking") + Pieces(ds, ThinkingPiece))
         && Get(b, "signature") ==
            (if HasPiece(ds, SignaturePiece) then Joined(w, ds, SignaturePiece) else Get(w, "signature"))
       case _ =>
         && SameExcept(b, w, {"input"})
         && if HasPiece(ds, InputPiece) && !SaysNothing(env, ds)
            then IsObj(Get(b, "input")) && env.codec.parse(Pieces(ds, InputPiece)) == Get(b, "input")
            else b == w
  }

  /** There are argument deltas, and all they come to is the empty string, which is no JSON text. */
  predicate SaysNothing(env: Env, ds: seq<Json>) {
    HasPiece(ds, InputPiece) && Pieces(ds, InputPiece) == "" && env.codec.parse("").None?
  }

  lemma SameObject(a: Json, b: Json, keys: set<string>)
    requires SameExcept(a, b, keys)
    requires forall k :: k in keys ==> Get(a, k) == Get(b, k)
    ensures a == b
  {
    forall k | k in a.fields || k in b.fields ensures Get(a, k) == Get(b, k) {
      if k !in keys {
        assert k in a.fields - keys <==> k in b.fields - keys;
        assert k in a.fields ==> (a.fields - keys)[k] == a.fields[k];
        assert k in b.fields ==> (b.fields - keys)[k] == b.fields[k];
      }
    }
    assert a.fields == b.fields by {
      forall k ensures k in a.fields <==> k in b.fields {
        assert k in a.fields || k in b.fields ==> Get(a, k) == Get(b, k);
      }
      forall k | k in a.fields ensures a.fields[k] == b.fields[k] {
        assert Get(a, k) == Get(b, k);
      }
    }
  }

  lemma WriteKeeps(w: Json, k1: string, a: Option<Json>, k2: string, b: Option<Json>)
    requires w.Obj?
    ensures SameExcept(WriteIf(WriteIf(w, k1, a), k2, b), w, {k1, k2})
  {
    var r := WriteIf(WriteIf(w, k1, a), k2, b);
    assert r.fields - {k1, k2} == w.fields - {k1, k2};
  }

  /** The pieces of a block, put back in place, are the block; it counts as complete unless they say nothing. */
  lemma {:induction false} FragmentsRebuild(env: Env, b: Json, w: Json, callIndex: Option<nat>, ds: seq<Json>)
    requires Fragments(env, b, w, ds)
    ensures Rebuilt(env, w, callIndex, ds, true).wire == b
    ensures Rebuilt(env, w, callIndex, ds, true).incomplete == SaysNothing(env, ds)
  {
    match TypeOf(w)
    case TextBlock =>
      TextRebuilds(env, b, w, ds);
    case ThinkingBlock =>
      ThinkingRebuilds(env, b, w, ds);
    case _ =>
      if HasPiece(ds, InputPiece) && !SaysNothing(env, ds) {
        var r := WithField(w, "input", Get(b, "input").value);
        assert r.fields - {"input"} == w.fields - {"input"};
        SameObject(r, b, {"input"});
      }
  }

  lemma TextRebuilds(env: Env, b: Json, w: Json, ds: seq<Json>)
    requires Fragments(env, b, w, ds) && TypeOf(w).TextBlock?
    ensures RebuiltWire(w, ds) == b
  {
    var joined, cited := Joined(w, ds, TextPiece), Cited(w, ds);
    WriteKeeps(w, "text", joined, "citations", cited);
    ReadBack(w, "text", joined, "citations", cited);
    if !HasPiece(ds, TextPiece) {
      NoPieces(ds, TextPiece);
      assert TextIn(w, "text") + "" == TextIn(w, "text");
    }
    SameObject(RebuiltWire(w, ds), b, {"text", "citations"});
  }

  lemma ThinkingRebuilds(env: Env, b: Json, w: Json, ds: seq<Json>)
    requires Fragments(env, b, w, ds) && TypeOf(w).ThinkingBlock?
    ensures RebuiltWire(w, ds) == b
  {
    var thinking, signature := Joined(w, ds, ThinkingPiece), Joined(w, ds, SignaturePiece);
    WriteKeeps(w, "thinking", thinking, "signature", signature);
    ReadBack(w, "thinking", thinking, "signature", signature);
    if !HasPiece(ds, ThinkingPiece) {
      NoPieces(ds, ThinkingPiece);
      assert TextIn(w, "thinking") + "" == TextIn(w, "thinking");
    }
    SameObject(RebuiltWire(w, ds), b, {"thinking", "signature"});
  }

  predicate Whole(env: Env, es: seq<Json>, content: seq<Json>) {
    && |content| == |Starts(es)|
    && forall i :: 0 <= i < |content| ==> Fragments(env, content[i], Starts(es)[i], DeltasFor(es, i))
  }

  lemma WholeContent(env: Env, es: seq<Json>, content: seq<Json>)
    requires Whole(env, es, content) && AllStopped(es)
    ensures forall i: nat :: i < |content| ==> CutShort(env, es, i) == SaysNothing(env, DeltasFor(es, i))
    ensures forall n: nat :: n <= |content| ==> FinalContent(env, es, n) == content[..n]
  {
    forall i: nat | i < |content|
      ensures RebuiltAt(env, es, i).wire == content[i] && CutShort(env, es, i) == SaysNothing(env, DeltasFor(es, i))
    {
      FragmentsRebuild(env, content[i], Starts(es)[i], CallIndex(Starts(es), i), DeltasFor(es, i));
      CutShortIsIncomplete(env, es, i);
    }
  }

  lemma {:induction false} OpenableParses(env: Env, b: Json, w: Json, ds: seq<Json>)
    requires Fragments(env, b, w, ds)
    ensures ParseBlock(b).Ok?
  {
    assert TypeOf(b) == TypeOf(w) && Get(b, "id") == Get(w, "id") && Get(b, "name") == Get(w, "name") by {
      OtherFields(b, w, "type");
      OtherFields(b, w, "id");
      OtherFields(b, w, "name");
    }
  }

  lemma OtherFields(a: Json, b: Json, key: string)
    requires SameExcept(a, b, {"text", "citations"}) || SameExcept(a, b, {"thinking", "signature"}) || SameExcept(a, b, {"input"})
    requires key in {"type", "id", "name"}
    ensures Get(a, key) == Get(b, key)
  {
    var keys := if SameExcept(a, b, {"text", "citations"}) then {"text", "citations"}
                else if SameExcept(a, b, {"thinking", "signature"}) then {"thinking", "signature"} else {"input"};
    assert key !in keys;
    assert key in a.fields - keys <==> key in a.fields;
    assert key in b.fields - keys <==> key in b.fields;
    assert key in a.fields ==> (a.fields - keys)[key] == a.fields[key];
    assert key in b.fields ==> (b.fields - keys)[key] == b.fields[key];
  }

  /** The stream, given `stop` after `es`, ends with this output of the batch parser. */
  predicate EndsAs(env: Env, es: seq<Json>, stop: Json, batch: Result<ModelOutput, ErrorKind>)
    requires RunTrace(env, es).Ok?
  {
    var last := Step(env, RunTrace(env, es).value, stop);
    batch.Ok? && last.Ok? && last.value.1 == [Done(batch.value)]
  }

  /** Every block of the message came whole. */
  predicate SaysAll(env: Env, es: seq<Json>, content: seq<Json>) {
    forall i: nat :: i < |content| ==> !SaysNothing(env, DeltasFor(es, i))
  }

  lemma {:induction false} LegalRuns(env: Env, es: seq<Json>)
    requires Legal(env, es)
    ensures RunTrace(env, es) == Ok(Expected(env, es))
  {
    NoStops(env, es);
    TraceAgrees(env, es);
  }

  /**
   For every message and every legal way to stream it, the stream ends with what the batch
   parser returns for the whole message, unless the argument deltas of some call say nothing:
   then it fails, or, when that call is the last under the token limit, leaves the call out.
   */
  lemma {:induction false} StreamEqualsBatch(env: Env, es: seq<Json>, stop: Json, content: seq<Json>)
    requires Legal(env, es) && Ended(es) && KindOf(stop) == Some(MessageStop)
    requires Whole(env, es, content)
    ensures Batch(env, es, content).Ok? && RunTrace(env, es).Ok?
    ensures EndsAs(env, es, stop, Batch(env, es, content)) <==> SaysAll(env, es, content)
  {
    LegalRuns(env, es);
    EndAgrees(env, es, stop);
    WholeContent(env, es, content);
    BatchParses(env, es, content);
    var n := KeptCount(env, es);
    if SaysAll(env, es, content) {
      assert content[..n] == content;
    } else if n < |content| {
      BatchCounts(env, es, content);
      if Outcome(env, es).Ok? {
        BatchCounts(env, es, content[..n]);
      }
    } else {
      var i: nat :| i < |content| && SaysNothing(env, DeltasFor(es, i));
      assert CutShort(env, es, i);
    }
  }

  lemma BatchParses(env: Env, es: seq<Json>, content: seq<Json>)
    requires Whole(env, es, content)
    ensures Batch(env, es, content).Ok?
  {
    forall i: nat | i < |content| ensures ParseBlock(content[i]).Ok? {
      OpenableParses(env, content[i], Starts(es)[i], DeltasFor(es, i));
    }
    BatchAccepts(env, es, content);
  }

  /** The batch parser asks no more of the message than that each block parses. */
  lemma {:induction false} BatchAccepts(env: Env, es: seq<Json>, content: seq<Json>)
    requires forall i: nat :: i < |content| ==> ParseBlock(content[i]).Ok?
    ensures Batch(env, es, content).Ok?
  {
    ParseBlocksEach(content);
    var reason := if Reason(es).Some? then Reason(es).value else "";
    var response := BatchResponse(content, reason, UsageAt(env, es));
    assert Get(response, "content") == Some(Arr(content)) && StrOf(response, "stop_reason") == Some(reason);
  }

  lemma {:induction false} BatchCounts(env: Env, es: seq<Json>, content: seq<Json>)
    requires Batch(env, es, content).Ok?
    ensures |Batch(env, es, content).value.items| == |content|
  {
    ParseBlocksEach(content);
    var reason := if Reason(es).Some? then Reason(es).value else "";
    assert Get(BatchResponse(content, reason, UsageAt(env, es)), "content") == Some(Arr(content));
  }

  lemma TextParses(w: Json, ds: seq<Json>)
    requires Openable(w) && TypeOf(w).TextBlock?
    ensures ParseBlock(RebuiltWire(w, ds)).Ok?
  {
    RebuiltType(w, ds);
    ReadBack(w, "text", Joined(w, ds, TextPiece), "citations", Cited(w, ds));
    assert StrOf(RebuiltWire(w, ds), "text").Some?;
  }

  lemma ThinkingParses(w: Json, ds: seq<Json>)
    requires Openable(w) && TypeOf(w).ThinkingBlock?
    ensures ParseBlock(RebuiltWire(w, ds)).Ok?
  {
    RebuiltType(w, ds);
    ReadBack(w, "thinking", Joined(w, ds, ThinkingPiece), "signature", Joined(w, ds, SignaturePiece));
    assert StrOf(RebuiltWire(w, ds), "thinking").Some?;
  }

  /** Closing a block writes its input and nothing else, which no block needs in order to parse. */
  lemma InputParses(b: Json, input: Option<Json>)
    requires ParseBlock(b).Ok?
    ensures ParseBlock(WriteIf(b, "input", input)).Ok?
  {
    var r := WriteIf(b, "input", input);
    assert forall k :: k != "input" ==> Get(r, k) == Get(b, k);
    assert "type" != "input" && "id" != "input" && "name" != "input" && "text" != "input" && "thinking" != "input";
    assert TypeOf(r) == TypeOf(b);
  }

  /** A block that may be started parses, whatever its deltas say. */
  lemma RebuiltParses(env: Env, w: Json, callIndex: Option<nat>, ds: seq<Json>, stopped: bool)
    requires Openable(w)
    ensures ParseBlock(Rebuilt(env, w, callIndex, ds, stopped).wire).Ok?
  {
    match TypeOf(w) {
      case TextBlock => TextParses(w, ds);
      case ThinkingBlock => ThinkingParses(w, ds);
      case _ =>
    }
    assert ParseBlock(RebuiltWire(w, ds)).Ok?;
    InputParses(RebuiltWire(w, ds), env.codec.parse(Pieces(ds, InputPiece)));
  }

  /**
   After any legal trace that has ended, the stream gives the batch parser's output for the
   blocks that are kept exactly when the arguments of each of them are complete, and fails otherwise.
   */
  lemma {:induction false} StreamIsBatchOfKept(env: Env, es: seq<Json>, stop: Json)
    requires Legal(env, es) && Ended(es) && KindOf(stop) == Some(MessageStop)
    ensures RunTrace(env, es).Ok?
    ensures var n := KeptCount(env, es);
            var batch := Batch(env, es, FinalContent(env, es, n));
            && batch.Ok?
            && (EndsAs(env, es, stop, batch) <==> forall i: nat :: i < n ==> !CutShort(env, es, i))
            && (!EndsAs(env, es, stop, batch) ==> Step(env, RunTrace(env, es).value, stop) == Err(Undecodable))
  {
    LegalRuns(env, es);
    LegalIsSound(env, es);
    EndAgrees(env, es, stop);
    var content := FinalContent(env, es, KeptCount(env, es));
    forall i: nat | i < |content| ensures ParseBlock(content[i]).Ok? {
      RebuiltParses(env, Starts(es)[i], CallIndex(Starts(es), i), DeltasFor(es, i), StopFor(es, i));
    }
    BatchAccepts(env, es, content);
  }

  lemma {:induction false} NoStops(env: Env, es: seq<Json>)
    requires Legal(env, es)
    ensures forall v :: v in es ==> KindOf(v) != Some(MessageStop)
    decreases |es|
  {
    if es != [] {
      var past, v := es[..|es| - 1], es[|es| - 1];
      NoStops(env, past);
      assert Allowed(env, past, v) && KindOf(v) != Some(MessageStop);
      assert forall u :: u in es ==> u in past || u == v;
    }
  }

  // -- the assembler behind the decoder ---------------------------------------------------

  function Assembling(env: Env): Assembler<State> {
    (st, e) => OnEvent(env, st, e)
  }

  /** The assembler answers every event with at most one delta, so `Done` is always last. */
  lemma {:induction false} OneDeltaAtMost(env: Env, st: State, v: Json)
    ensures Step(env, st, v).Ok? ==> |Step(env, st, v).value.1| <= 1
  {
  }

  lemma {:induction false} AnthropicDoneLast(env: Env)
    ensures DeliversDoneLast(Assembling(env))
  {
    forall st, e | Assembling(env)(st, e).Ok? ensures DoneOnlyLast(Assembling(env)(st, e).value.1) {
      OneDeltaAtMost(env, st, env.codec.parse(AsText(e.data)).value);
    }
  }

  /** A framed event that carries the JSON event `v` under its own or no name. */
  predicate Carries(env: Env, e: Sse.SseEvent, v: Json) {
    && env.codec.parse(AsText(e.data)) == Some(v)
    && StrOf(v, "type").Some?
    && (e.name.Some? ==> AsText(e.name.value) == StrOf(v, "type").value || AsText(e.name.value) == "message")
  }

  /** The framed events carry the trace, one JSON event each. */
  predicate CarryAll(env: Env, events: seq<Sse.SseEvent>, es: seq<Json>) {
    |events| == |es| && forall k :: 0 <= k < |es| ==> Carries(env, events[k], es[k])
  }

  lemma {:induction false} OnlyStopIsDone(env: Env, st: State, v: Json)
    requires KindOf(v) != Some(MessageStop)
    ensures Step(env, st, v).Ok? ==> !HasDone(Step(env, st, v).value.1)
  {
  }

  lemma {:induction false} AssembleNext(env: Env, past: seq<Json>, v: Json, e: Sse.SseEvent, maxPending: nat)
    requires maxPending > 0 && Legal(env, past) && Legal(env, past + [v]) && Carries(env, e, v)
    ensures var r := Assemble(Assembling(env), Expected(env, past), e, maxPending);
            r.Go? && r.next == Expected(env, past + [v])
  {
    var es := past + [v];
    assert es[..|es| - 1] == past && es[|es| - 1] == v;
    LegalRuns(env, past);
    LegalRuns(env, es);
    OneDeltaAtMost(env, Expected(env, past), v);
    OnlyStopIsDone(env, Expected(env, past), v);
    assert Assembling(env)(Expected(env, past), e) == Step(env, Expected(env, past), v);
  }

  lemma {:induction false} AssembleTrace(env: Env, events: seq<Sse.SseEvent>, es: seq<Json>, maxPending: nat)
    requires maxPending > 0 && CarryAll(env, events, es)
    requires Legal(env, es)
    ensures var run := AssembleAll(Assembling(env), Initial, events, maxPending);
            run.Go? && run.next == Expected(env, es)
    decreases |es|
  {
    if es == [] {
      LegalRuns(env, es);
    } else {
      var n := |es| - 1;
      var earlier, e, past, v := events[..n], events[n], es[..n], es[n];
      SplitLast(events);
      SplitLast(es);
      AssembleTrace(env, earlier, past, maxPending);
      AssembleNext(env, past, v, e, maxPending);
      var before := AssembleAll(Assembling(env), Initial, earlier, maxPending);
      AssembleSnoc(Assembling(env), Initial, earlier, e, maxPending, before.out, Expected(env, past));
    }
  }

  function Batch(env: Env, es: seq<Json>, content: seq<Json>): Result<ModelOutput, ErrorKind> {
    ParseResponse(env.classify, BatchResponse(content, if Reason(es).Some? then Reason(es).value else "", UsageAt(env, es)))
  }

  /** A run that ends successfully, its last delta being `Done` with the batch output. */
  predicate EndsWith<S>(run: Move<S, StreamDelta, Stop>, batch: Result<ModelOutput, ErrorKind>) {
    batch.Ok? && run.Halt? && run.why == Finished && run.out != [] && run.out[|run.out| - 1] == Done(batch.value)
  }

  lemma {:induction false} AssembleStop(env: Env, st: State, last: Sse.SseEvent, stop: Json, maxPending: nat,
                                        batch: Result<ModelOutput, ErrorKind>)
    requires maxPending > 0 && Carries(env, last, stop) && batch.Ok?
    requires var r := Step(env, st, stop); r.Ok? && r.value.1 == [Done(batch.value)]
    ensures Assemble(Assembling(env), st, last, maxPending) == Halt([Done(batch.value)], Finished)
  {
    var done := [Done(batch.value)];
    assert done[0].Done? && HasDone(done);
    assert Assembling(env)(st, last) == Step(env, st, stop);
  }

  lemma EndsAfter(out: seq<StreamDelta>, run: Move<State, StreamDelta, Stop>, batch: Result<ModelOutput, ErrorKind>)
    requires batch.Ok? && run == After(out, Halt([Done(batch.value)], Finished))
    ensures EndsWith(run, batch)
  {
  }

  /** The events of a whole message, through the assembler. */
  lemma {:induction false} AssembleWhole(env: Env, events: seq<Sse.SseEvent>, es: seq<Json>, last: Sse.SseEvent, stop: Json,
                                         content: seq<Json>, maxPending: nat)
    requires maxPending > 0 && CarryAll(env, events, es)
    requires Carries(env, last, stop) && KindOf(stop) == Some(MessageStop)
    requires Legal(env, es) && Ended(es) && Whole(env, es, content) && SaysAll(env, es, content)
    ensures EndsWith(AssembleAll(Assembling(env), Initial, events + [last], maxPending), Batch(env, es, content))
  {
    StreamEqualsBatch(env, es, stop, content);
    AssembleTrace(env, events, es, maxPending);
    LegalRuns(env, es);
    AssembleStop(env, Expected(env, es), last, stop, maxPending, Batch(env, es, content));
    var run := AssembleAll(Assembling(env), Initial, events, maxPending);
    AssembleSnoc(Assembling(env), Initial, events, last, maxPending, run.out, Expected(env, es));
    EndsAfter(run.out, AssembleAll(Assembling(env), Initial, events + [last], maxPending), Batch(env, es, content));
  }

  /**
   From bytes to `Done`: whatever bytes frame into a legal stream of a whole message, the byte
   run ends with the batch parser's output as its last delta.
   */
  lemma {:induction false} BytesToDone(env: Env, lim: StreamLimits, bytes: Utf8.Bytes, events: seq<Sse.SseEvent>, es: seq<Json>,
                                       last: Sse.SseEvent, stop: Json, content: seq<Json>)
    requires |bytes| <= lim.maxTotal && lim.maxPending > 0
    requires Run(FrameOf(lim), Sse.Fresh, bytes).out == events + [last]
    requires CarryAll(env, events, es)
    requires Carries(env, last, stop) && KindOf(stop) == Some(MessageStop)
    requires Legal(env, es) && Ended(es) && Whole(env, es, content) && SaysAll(env, es, content)
    ensures EndsWith(ByteRun(Assembling(env), lim, Core(Sse.Fresh, Initial, 0), bytes), Batch(env, es, content))
  {
    AssembleWhole(env, events, es, last, stop, content, lim.maxPending);
    var run := AssembleAll(Assembling(env), Initial, events + [last], lim.maxPending);
    AssemblerEnds(FrameOf(lim), Assembling(env), lim, Core(Sse.Fresh, Initial, 0), bytes,
                  events + [last], run.out, Finished);
  }
}
