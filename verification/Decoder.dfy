/**
 The stream decoder: framing feeding an assembler, delta by delta, under a total byte limit.
 The reference is a byte machine built from any framing machine and any assembler; the class
 that works on chunks is proved to deliver exactly what that machine delivers.
 */
module Decoder {
  import opened Wrappers
  import opened Sequences
  import opened Utf8
  import opened Mealy
  import opened Model
  import opened Sse

  datatype StreamLimits = StreamLimits(maxLine: nat, maxEvent: nat, maxTotal: nat,
                                       maxOutput: nat, maxItems: nat, maxPending: nat)

  /** How an assembler reacts to one event: a new state and deltas, or an error. */
  type Assembler<!S> = (S, SseEvent) -> Result<(S, seq<StreamDelta>), ErrorKind>

  type Frame<!F> = Machine<F, byte, SseEvent, ErrorKind>

  datatype Core<F, S> = Core(sse: F, asm: S, total: nat)

  datatype Stop = Finished | Failed(kind: ErrorKind)

  predicate HasDone(deltas: seq<StreamDelta>) {
    exists i :: 0 <= i < |deltas| && deltas[i].Done?
  }

  /** One framed event handed to the assembler. */
  function Assemble<S>(asm: Assembler<S>, s: S, e: SseEvent, maxPending: nat): Move<S, StreamDelta, Stop> {
    match asm(s, e)
    case Err(kind) => Halt([], Failed(kind))
    case Ok((next, deltas)) =>
      if |deltas| > maxPending then Halt([], Failed(Undecodable))
      else if HasDone(deltas) then Halt(deltas, Finished)
      else Go(deltas, next)
  }

  function AssembleAll<S>(asm: Assembler<S>, s: S, events: seq<SseEvent>, maxPending: nat): Move<S, StreamDelta, Stop>
    decreases |events|
  {
    if events == [] then Go([], s)
    else
      match Assemble(asm, s, events[0], maxPending)
      case Halt(out, why) => Halt(out, why)
      case Go(out, next) => After(out, AssembleAll(asm, next, events[1..], maxPending))
  }

  /** What `n` bytes that frame as `framed` come to once their events are assembled. */
  function Assembled<F, S>(asm: Assembler<S>, lim: StreamLimits, c: Core<F, S>, framed: Move<F, SseEvent, ErrorKind>, n: nat)
    : Move<Core<F, S>, StreamDelta, Stop>
  {
    match AssembleAll(asm, c.asm, framed.out, lim.maxPending)
    case Halt(out, why) => Halt(out, why)
    case Go(out, asmNext) =>
      if framed.Halt? then Halt(out, Failed(framed.why)) else Go(out, Core(framed.next, asmNext, c.total + n))
  }

  function StepByte<F, S>(frame: Frame<F>, asm: Assembler<S>, lim: StreamLimits, c: Core<F, S>, b: byte)
    : Move<Core<F, S>, StreamDelta, Stop>
  {
    if c.total >= lim.maxTotal then Halt([], Failed(Undecodable)) else Assembled(asm, lim, c, frame(c.sse, b), 1)
  }

  function ByteStepper<F, S>(frame: Frame<F>, asm: Assembler<S>, lim: StreamLimits)
    : Machine<Core<F, S>, byte, StreamDelta, Stop>
  {
    (c, b) => StepByte(frame, asm, lim, c, b)
  }

  lemma {:induction false} AssembleConcat<S>(asm: Assembler<S>, s: S, a: seq<SseEvent>, b: seq<SseEvent>, maxPending: nat)
    ensures AssembleAll(asm, s, a + b, maxPending) ==
            match AssembleAll(asm, s, a, maxPending)
            case Halt(out, why) => Halt(out, why)
            case Go(out, next) => After(out, AssembleAll(asm, next, b, maxPending))
    decreases |a|
  {
    if a == [] {
      assert a + b == b;
      var rest := AssembleAll(asm, s, b, maxPending);
      assert [] + rest.out == rest.out;
    } else {
      assert (a + b)[0] == a[0] && (a + b)[1..] == a[1..] + b;
      var first := Assemble(asm, s, a[0], maxPending);
      if first.Go? {
        AssembleConcat(asm, first.next, a[1..], b, maxPending);
        var middle := AssembleAll(asm, first.next, a[1..], maxPending);
        if middle.Go? {
          var rest := AssembleAll(asm, middle.next, b, maxPending);
          assert first.out + (middle.out + rest.out) == first.out + middle.out + rest.out;
        }
      }
    }
  }

  /** Framing and assembling in two goes is framing both and assembling once. */
  lemma AssembledThen<F, S>(asm: Assembler<S>, lim: StreamLimits, c: Core<F, S>, first: Move<F, SseEvent, ErrorKind>,
                            framed: Move<F, SseEvent, ErrorKind>, n: nat)
    requires first.Go?
    ensures Assembled(asm, lim, c, After(first.out, framed), n + 1) ==
            match Assembled(asm, lim, c, first, 1)
            case Halt(out, why) => Halt(out, why)
            case Go(out, next) => After(out, Assembled(asm, lim, next, framed, n))
  {
    AssembleConcat(asm, c.asm, first.out, framed.out, lim.maxPending);
  }

  /** The first byte of what fits in `room`, and the rest. */
  lemma FirstByte<F>(frame: Frame<F>, s: F, input: Bytes, room: nat)
    requires input != [] && room > 0
    ensures var rest := input[1..];
            Run(frame, s, if |input| <= room then input else input[..room]) ==
            match frame(s, input[0])
            case Halt(out, why) => Halt(out, why)
            case Go(out, next) => After(out, Run(frame, next, if |rest| <= room - 1 then rest else rest[..room - 1]))
  {
    if |input| > room {
      assert input[..room][0] == input[0] && input[..room][1..] == input[1..][..room - 1];
    }
  }

  /** Framing first, assembling afterwards: the run without the byte-by-byte interleaving. */
  function FrameThenAssemble<F, S>(frame: Frame<F>, asm: Assembler<S>, lim: StreamLimits, c: Core<F, S>, input: Bytes)
    : Move<Core<F, S>, StreamDelta, Stop>
    requires c.total <= lim.maxTotal
  {
    var room := lim.maxTotal - c.total;
    if |input| <= room then Assembled(asm, lim, c, Run(frame, c.sse, input), |input|)
    else
      var full := Assembled(asm, lim, c, Run(frame, c.sse, input[..room]), room);
      if full.Go? then Halt(full.out, Failed(Undecodable)) else full
  }

  /**
   The interleaved run is framing followed by assembling, cut at the byte limit: deltas of
   earlier events come before a later event's error, and nothing comes after a halt.
   */
  lemma {:induction false} RunIsFrameThenAssemble<F, S>(frame: Frame<F>, asm: Assembler<S>, lim: StreamLimits,
                                                        c: Core<F, S>, input: Bytes)
    requires c.total <= lim.maxTotal
    ensures Run(ByteStepper(frame, asm, lim), c, input) == FrameThenAssemble(frame, asm, lim, c, input)
    decreases |input|
  {
    if input != [] && c.total < lim.maxTotal {
      var first := frame(c.sse, input[0]);
      var rest := input[1..];
      var room := lim.maxTotal - c.total;
      var view := if |rest| <= room - 1 then rest else rest[..room - 1];
      if first.Go? {
        AssembledThen(asm, lim, c, first, Run(frame, first.next, view), |view|);
        var pushed := Assembled(asm, lim, c, first, 1);
        if pushed.Go? {
          RunIsFrameThenAssemble(frame, asm, lim, pushed.next, rest);
        }
      }
      FirstByte(frame, c.sse, input, room);
    }
  }

  /** Within the byte limit, a run the assembler ends is ended by it alone. */
  lemma AssemblerEnds<F, S>(frame: Frame<F>, asm: Assembler<S>, lim: StreamLimits, c: Core<F, S>, input: Bytes,
                            framed: seq<SseEvent>, out: seq<StreamDelta>, why: Stop)
    requires c.total + |input| <= lim.maxTotal
    requires Run(frame, c.sse, input).out == framed
    requires AssembleAll(asm, c.asm, framed, lim.maxPending) == Halt(out, why)
    ensures Run(ByteStepper(frame, asm, lim), c, input) == Halt(out, why)
  {
    RunIsFrameThenAssemble(frame, asm, lim, c, input);
  }

  // -- Done comes once and last ---------------------------------------------------

  predicate DoneOnlyLast(deltas: seq<StreamDelta>) {
    forall i :: 0 <= i < |deltas| - 1 ==> !deltas[i].Done?
  }

  ghost predicate DeliversDoneLast<S(!new)>(asm: Assembler<S>) {
    forall s, e :: asm(s, e).Ok? ==> DoneOnlyLast(asm(s, e).value.1)
  }

  lemma DoneAfter(a: seq<StreamDelta>, b: seq<StreamDelta>)
    requires !HasDone(a) && DoneOnlyLast(b)
    ensures DoneOnlyLast(a + b) && (HasDone(a + b) <==> HasDone(b))
    ensures HasDone(b) ==> (a + b)[|a + b| - 1] == b[|b| - 1]
  {
    var both := a + b;
    forall i | 0 <= i < |both| - 1 ensures !both[i].Done? {
      if i < |a| {
        assert both[i] == a[i];
      } else {
        assert both[i] == b[i - |a|];
      }
    }
    if HasDone(b) {
      var i :| 0 <= i < |b| && b[i].Done?;
      assert both[|a| + i].Done?;
    }
    if HasDone(both) {
      var i :| 0 <= i < |both| && both[i].Done?;
      assert both[i] == (a + b)[i];
      assert forall k :: 0 <= k < |a| ==> both[k] == a[k] && !both[k].Done?;
      assert both[i] == b[i - |a|];
    }
  }

  /** `Done` ends the run, is its last delta, and occurs in no other outcome. */
  lemma {:induction false} DoneOnceAndLast<S(!new)>(asm: Assembler<S>, s: S, events: seq<SseEvent>, maxPending: nat)
    requires DeliversDoneLast(asm)
    ensures var run := AssembleAll(asm, s, events, maxPending);
            && DoneOnlyLast(run.out)
            && (HasDone(run.out) <==> run == Halt(run.out, Finished))
            && (HasDone(run.out) ==> run.out[|run.out| - 1].Done?)
    decreases |events|
  {
    if events != [] {
      var first := Assemble(asm, s, events[0], maxPending);
      assert asm(s, events[0]).Ok? ==> DoneOnlyLast(asm(s, events[0]).value.1);
      if first.Go? {
        DoneOnceAndLast(asm, first.next, events[1..], maxPending);
        DoneAfter(first.out, AssembleAll(asm, first.next, events[1..], maxPending).out);
      }
    }
  }

  lemma WholeRunDone<F, S(!new)>(frame: Frame<F>, asm: Assembler<S>, lim: StreamLimits, c: Core<F, S>, input: Bytes)
    requires c.total <= lim.maxTotal && DeliversDoneLast(asm)
    ensures var run := Run(ByteStepper(frame, asm, lim), c, input);
            && DoneOnlyLast(run.out)
            && (HasDone(run.out) <==> run == Halt(run.out, Finished))
            && (HasDone(run.out) ==> run.out[|run.out| - 1].Done?)
  {
    RunIsFrameThenAssemble(frame, asm, lim, c, input);
    var room := lim.maxTotal - c.total;
    var framed := Run(frame, c.sse, if |input| <= room then input else input[..room]);
    DoneOnceAndLast(asm, c.asm, framed.out, lim.maxPending);
  }

  // -- the decoder ------------------------------------------------------------------

  type Outlook<S> = Move<Core<Framing, S>, StreamDelta, Stop>

  /** Silent bytes leave the assembler alone. */
  lemma {:induction false} SilentBytes<F, S>(frame: Frame<F>, asm: Assembler<S>, lim: StreamLimits, c: Core<F, S>, s: Bytes)
    requires c.total + |s| <= lim.maxTotal
    requires Run(frame, c.sse, s).out == []
    ensures Run(ByteStepper(frame, asm, lim), c, s) ==
            match Run(frame, c.sse, s)
            case Halt(_, kind) => Halt([], Failed(kind))
            case Go(_, next) => Go([], c.(sse := next, total := c.total + |s|))
  {
    RunIsFrameThenAssemble(frame, asm, lim, c, s);
  }

  lemma AssembleOne<S>(asm: Assembler<S>, s: S, e: SseEvent, maxPending: nat)
    ensures AssembleAll(asm, s, [e], maxPending) == Assemble(asm, s, e, maxPending)
  {
    var one := Assemble(asm, s, e, maxPending);
    assert [e][1..] == [];
    if one.Go? {
      assert one.out + [] == one.out;
    }
  }

  /** One more event, after a run that goes on. */
  lemma AssembleSnoc<S>(asm: Assembler<S>, s: S, events: seq<SseEvent>, e: SseEvent, maxPending: nat,
                        out: seq<StreamDelta>, middle: S)
    requires AssembleAll(asm, s, events, maxPending) == Go(out, middle)
    ensures AssembleAll(asm, s, events + [e], maxPending) == After(out, Assemble(asm, middle, e, maxPending))
  {
    AssembleConcat(asm, s, events, [e], maxPending);
    AssembleOne(asm, middle, e, maxPending);
  }

  /** Within the byte limit, bytes come to what their events come to. */
  lemma BytesWithin<F, S>(frame: Frame<F>, asm: Assembler<S>, lim: StreamLimits, c: Core<F, S>, s: Bytes)
    requires c.total + |s| <= lim.maxTotal
    ensures Run(ByteStepper(frame, asm, lim), c, s) == Assembled(asm, lim, c, Run(frame, c.sse, s), |s|)
  {
    RunIsFrameThenAssemble(frame, asm, lim, c, s);
  }

  /** The bytes of one event hand exactly that event to the assembler. */
  lemma {:induction false} EventBytes<F, S>(frame: Frame<F>, asm: Assembler<S>, lim: StreamLimits, c: Core<F, S>, s: Bytes,
                                            e: SseEvent, next: F)
    requires c.total + |s| <= lim.maxTotal
    requires Run(frame, c.sse, s) == Go([e], next)
    ensures Run(ByteStepper(frame, asm, lim), c, s) ==
            match Assemble(asm, c.asm, e, lim.maxPending)
            case Halt(out, why) => Halt(out, why)
            case Go(out, asmNext) => Go(out, Core(next, asmNext, c.total + |s|))
  {
    BytesWithin(frame, asm, lim, c, s);
    AssembleOne(asm, c.asm, e, lim.maxPending);
  }

  function FrameOf(lim: StreamLimits): Frame<Framing> {
    Sse.Stepper(Limits(lim.maxLine, lim.maxEvent))
  }

  function ByteRun<S>(asm: Assembler<S>, lim: StreamLimits, c: Core<Framing, S>, input: Bytes): Outlook<S> {
    Run(ByteStepper(FrameOf(lim), asm, lim), c, input)
  }

  /** What is still to be delivered, given the bytes not yet read. */
  function Outstanding<S>(asm: Assembler<S>, lim: StreamLimits, pending: seq<StreamDelta>, terminal: bool,
                       c: Core<Framing, S>, input: Bytes): Outlook<S>
  {
    if terminal then Halt(pending, Finished) else After(pending, ByteRun(asm, lim, c, input))
  }

  type Delivery = Result<Option<StreamDelta>, ErrorKind>

  /** One call of the decoder: a delta taken off what was expected, or the error that was due. */
  ghost predicate Delivers<S(!new)>(before: Outlook<S>, result: Delivery, after: Outlook<S>) {
    match result
    case Err(kind) => before == Halt([], Failed(kind))
    case Ok(None) => before == after && after.out == []
    case Ok(Some(delta)) => before == After([delta], after)
  }

  lemma OverLimit<S>(asm: Assembler<S>, lim: StreamLimits, c: Core<Framing, S>, input: Bytes)
    requires c.total == lim.maxTotal && input != []
    ensures ByteRun(asm, lim, c, input) == Halt([], Failed(Undecodable))
  {
  }

  /** The part of the input the parser may see was refused. */
  lemma ViewRefused<S>(asm: Assembler<S>, lim: StreamLimits, c: Core<Framing, S>, input: Bytes, n: nat, kind: ErrorKind)
    requires n <= |input| && c.total + n <= lim.maxTotal
    requires Run(FrameOf(lim), c.sse, input[..n]) == Halt([], kind)
    ensures ByteRun(asm, lim, c, input) == Halt([], Failed(kind))
  {
    SilentBytes(FrameOf(lim), asm, lim, c, input[..n]);
    HaltsOnwards(ByteStepper(FrameOf(lim), asm, lim), c, input[..n], input[n..]);
    assert input == input[..n] + input[n..];
  }

  lemma {:induction false} HeadSilent<S>(asm: Assembler<S>, lim: StreamLimits, c: Core<Framing, S>, head: Bytes,
                                         rest: Bytes, next: Framing)
    requires c.total + |head| <= lim.maxTotal && Run(FrameOf(lim), c.sse, head) == Go([], next)
    ensures ByteRun(asm, lim, c, head + rest) == ByteRun(asm, lim, c.(sse := next, total := c.total + |head|), rest)
  {
    SilentBytes(FrameOf(lim), asm, lim, c, head);
    RunExtends(ByteStepper(FrameOf(lim), asm, lim), c, head, c.(sse := next, total := c.total + |head|), rest);
  }

  lemma {:induction false} ViewSilent<S>(asm: Assembler<S>, lim: StreamLimits, c: Core<Framing, S>, input: Bytes, n: nat,
                                         next: Framing)
    requires n <= |input| && c.total + n <= lim.maxTotal
    requires Run(FrameOf(lim), c.sse, input[..n]) == Go([], next)
    ensures ByteRun(asm, lim, c, input) == ByteRun(asm, lim, c.(sse := next, total := c.total + n), input[n..])
  {
    Halves(input, n);
    HeadSilent(asm, lim, c, input[..n], input[n..], next);
  }

  lemma {:induction false} HeadEvent<S>(asm: Assembler<S>, lim: StreamLimits, c: Core<Framing, S>, head: Bytes, rest: Bytes,
                                        e: SseEvent, next: Framing)
    requires c.total + |head| <= lim.maxTotal
    requires Run(FrameOf(lim), c.sse, head) == Go([e], next)
    ensures ByteRun(asm, lim, c, head + rest) ==
            match Assemble(asm, c.asm, e, lim.maxPending)
            case Halt(out, why) => Halt(out, why)
            case Go(out, asmNext) => After(out, ByteRun(asm, lim, Core(next, asmNext, c.total + |head|), rest))
  {
    EventBytes(FrameOf(lim), asm, lim, c, head, e, next);
    RunConcat(ByteStepper(FrameOf(lim), asm, lim), c, head, rest);
  }

  lemma {:induction false} ViewEvent<S>(asm: Assembler<S>, lim: StreamLimits, c: Core<Framing, S>, input: Bytes, n: nat,
                                        e: SseEvent, next: Framing)
    requires n <= |input| && c.total + n <= lim.maxTotal
    requires Run(FrameOf(lim), c.sse, input[..n]) == Go([e], next)
    ensures ByteRun(asm, lim, c, input) ==
            match Assemble(asm, c.asm, e, lim.maxPending)
            case Halt(out, why) => Halt(out, why)
            case Go(out, asmNext) => After(out, ByteRun(asm, lim, Core(next, asmNext, c.total + n), input[n..]))
  {
    Halves(input, n);
    HeadEvent(asm, lim, c, input[..n], input[n..], e, next);
  }

  /** The decoder's fields after an event, as the reference step says. */
  ghost predicate Accepted<S>(step: Move<S, StreamDelta, Stop>, refused: Option<ErrorKind>,
                              pending: seq<StreamDelta>, terminal: bool, assembly: S)
  {
    if refused.Some? then step == Halt([], Failed(refused.value))
    else if terminal then step == Halt(pending, Finished) && HasDone(pending)
    else step == Go(pending, assembly)
  }

  /** What one turn did to what is owed. */
  ghost predicate Turned<S>(before: Outlook<S>, result: Result<bool, ErrorKind>, after: Outlook<S>) {
    if result.Err? then before == Halt([], Failed(result.error))
    else before == after && (!result.value ==> after.out == [])
  }

  lemma TurnedSilently<S>(asm: Assembler<S>, lim: StreamLimits, here: Core<Framing, S>, input: Bytes,
                          after: Framing)
    requires Pulled(asm, lim, here, input, Ok(None), after, |input|)
    ensures Turned(Outstanding(asm, lim, [], false, here, input), Ok(false),
                   Outstanding(asm, lim, [], false, Core(after, here.asm, here.total + |input|), []))
  {
    NothingPending(asm, lim, here, input);
    NothingPending(asm, lim, Core(after, here.asm, here.total + |input|), []);
    assert input[|input|..] == [];
  }

  lemma TurnedFailed<S>(asm: Assembler<S>, lim: StreamLimits, here: Core<Framing, S>, input: Bytes,
                        kind: ErrorKind, after: Framing, n: nat, any: Outlook<S>)
    requires n <= |input| && Pulled(asm, lim, here, input, Err(kind), after, n)
    ensures Turned(Outstanding(asm, lim, [], false, here, input), Err(kind), any)
  {
    NothingPending(asm, lim, here, input);
  }

  lemma EventOwed<S>(asm: Assembler<S>, lim: StreamLimits, c: Core<Framing, S>, input: Bytes, n: nat,
                     e: SseEvent, next: Framing, refused: Option<ErrorKind>,
                     pending: seq<StreamDelta>, terminal: bool, assembly: S)
    requires n <= |input| && c.total + n <= lim.maxTotal
    requires Run(FrameOf(lim), c.sse, input[..n]) == Go([e], next)
    requires Accepted(Assemble(asm, c.asm, e, lim.maxPending), refused, pending, terminal, assembly)
    ensures Turned(Outstanding(asm, lim, [], false, c, input),
                   if refused.Some? then Err(refused.value) else Ok(true),
                   Outstanding(asm, lim, pending, terminal, Core(next, assembly, c.total + n), input[n..]))
  {
    NothingPending(asm, lim, c, input);
    ViewEvent(asm, lim, c, input, n, e, next);
  }

  /** What a parser call on a view of the input means for the whole input. */
  ghost predicate Pulled<S>(asm: Assembler<S>, lim: StreamLimits, here: Core<Framing, S>, input: Bytes,
                            parsed: Sse.Decoded, after: Framing, consumed: nat)
    requires consumed <= |input|
  {
    match parsed
    case Err(kind) => ByteRun(asm, lim, here, input) == Halt([], Failed(kind))
    case Ok(None) =>
      ByteRun(asm, lim, here, input) ==
      ByteRun(asm, lim, Core(after, here.asm, here.total + consumed), input[consumed..])
    case Ok(Some(e)) => Run(FrameOf(lim), here.sse, input[..consumed]) == Go([e], after)
  }

  lemma PulledNothing<S>(asm: Assembler<S>, lim: StreamLimits, here: Core<Framing, S>, input: Bytes, after: Framing)
    requires here.total == lim.maxTotal && input != []
    ensures Pulled(asm, lim, here, input, Err(Undecodable), after, 0)
  {
    OverLimit(asm, lim, here, input);
  }

  lemma PulledToLimit<S>(asm: Assembler<S>, lim: StreamLimits, here: Core<Framing, S>, input: Bytes, after: Framing,
                         consumed: nat)
    requires consumed < |input| && here.total + consumed == lim.maxTotal
    requires Pulled(asm, lim, here, input, Ok(None), after, consumed)
    ensures Pulled(asm, lim, here, input, Err(Undecodable), after, consumed)
  {
    OverLimit(asm, lim, Core(after, here.asm, here.total + consumed), input[consumed..]);
  }

  /** What the parser saw of the input, in bytes of the input. */
  lemma {:induction false} ViewTook(lim: Limits, here: Framing, input: Bytes, bounded: Bytes, parsed: Sse.Decoded,
                                    unread: Bytes, after: Framing)
    requires bounded <= input && Took(lim, here, bounded, after, Events(parsed), Error(parsed), unread)
    ensures |unread| <= |bounded|
    ensures var seen := if parsed.Err? then |bounded| else |bounded| - |unread|;
            Run(Stepper(lim), here, input[..seen]) == AsMove(Events(parsed), Error(parsed), after)
  {
    var consumed := |bounded| - |unread|;
    assert bounded == input[..|bounded|] && bounded[..consumed] == input[..consumed];
  }

  lemma {:induction false} PulledView<S>(asm: Assembler<S>, lim: StreamLimits, here: Core<Framing, S>, input: Bytes,
                                         bounded: Bytes, parsed: Sse.Decoded, unread: Bytes, after: Framing)
    requires bounded <= input && here.total + |bounded| <= lim.maxTotal
    requires Took(Limits(lim.maxLine, lim.maxEvent), here.sse, bounded, after, Events(parsed), Error(parsed), unread)
    ensures Pulled(asm, lim, here, input, parsed, after, |bounded| - |unread|)
  {
    ViewTook(Limits(lim.maxLine, lim.maxEvent), here.sse, input, bounded, parsed, unread, after);
    match parsed
    case Err(kind) => ViewRefused(asm, lim, here, input, |bounded|, kind);
    case Ok(None) => ViewSilent(asm, lim, here, input, |bounded| - |unread|, after);
    case Ok(Some(_)) =>
  }

  class StreamDecoder<S(!new)> {
    const parser: SseParser
    const event: Assembler<S>
    const limits: StreamLimits
    var assembly: S
    var pending: seq<StreamDelta>
    var total: nat
    var terminal: bool
    var failed: bool

    ghost predicate IsValid()
      reads this, parser
    {
      && parser.limits == Limits(limits.maxLine, limits.maxEvent) && parser.IsValid()
      && total <= limits.maxTotal
      && (!failed && !terminal ==> !parser.failed && !parser.finished)
      && (failed ==> pending == [])
    }

    ghost function State(): Core<Framing, S>
      reads this, parser
    {
      Core(parser.State(), assembly, total)
    }

    /** What the decoder still owes if `input` is all that arrives. */
    ghost function Owes(input: Bytes): Outlook<S>
      reads this, parser
    {
      Outstanding(event, limits, pending, terminal, State(), input)
    }

    constructor (limits: StreamLimits, event: Assembler<S>, initial: S)
      ensures IsValid() && fresh(parser) && !failed && !terminal && pending == []
      ensures this.limits == limits && this.event == event && State() == Core(Fresh, initial, 0)
    {
      parser := new SseParser(Limits(limits.maxLine, limits.maxEvent));
      this.event, this.limits, assembly := event, limits, initial;
      pending, total, terminal, failed := [], 0, false, false;
    }

    /** The next delta of what is owed; after a failure, nothing more. */
    method Decode(input: Bytes) returns (result: Delivery, rest: Bytes)
      requires IsValid()
      modifies this, parser
      ensures IsValid()
      ensures |rest| <= |input| && rest == input[|input| - |rest|..]
      ensures old(failed) ==> failed && result == Ok(None) && rest == input
      ensures !old(failed) ==> failed == result.Err? && Delivers(old(Owes(input)), result, Owes(rest))
      ensures result == Ok(None) && !failed ==> pending == [] && (terminal || rest == [])
      ensures result.Ok? && result.value.Some? ==> |rest| < |input| || (rest == input && |pending| < |old(pending)|)
    {
      if failed {
        return Ok(None), input;
      }
      result, rest := DecodeInner(input);
      if result.Err? {
        failed := true;
        pending := [];
      }
    }

    method DecodeInner(input: Bytes) returns (result: Delivery, rest: Bytes)
      requires IsValid() && !failed
      modifies this, parser
      ensures failed == old(failed) && total <= limits.maxTotal && (result.Ok? ==> IsValid())
      ensures parser.limits == Limits(limits.maxLine, limits.maxEvent) && parser.IsValid()
      ensures |rest| <= |input| && rest == input[|input| - |rest|..]
      ensures Delivers(old(Owes(input)), result, Owes(rest))
      ensures result == Ok(None) ==> pending == [] && (terminal || rest == [])
      ensures result.Ok? && result.value.Some? ==> |rest| < |input| || (rest == input && |pending| < |old(pending)|)
    {
      rest := input;
      if pending != [] {
        var delta := Pop(input);
        return Ok(Some(delta)), rest;
      }
      if terminal {
        return Ok(None), rest;
      }
      ghost var owed := Owes(input);
      while true
        invariant IsValid() && !failed && !terminal && pending == []
        invariant |rest| <= |input| && rest == input[|input| - |rest|..]
        invariant owed == Owes(rest)
        decreases |rest|
      {
        var before := |rest|;
        var turned;
        turned, rest := Turn(rest);
        if turned.Err? {
          return Err(turned.error), rest;
        }
        if pending != [] {
          var delta := Pop(rest);
          return Ok(Some(delta)), rest;
        }
        if !turned.value || rest == [] || |rest| == before {
          return Ok(None), rest;
        }
      }
    }

    method Pop(input: Bytes) returns (delta: StreamDelta)
      requires IsValid() && !failed && pending != []
      modifies this`pending
      ensures IsValid() && |pending| < |old(pending)|
      ensures old(Owes(input)) == After([delta], Owes(input))
    {
      Popped(event, limits, pending, terminal, State(), input);
      delta := pending[0];
      pending := pending[1..];
    }

    /** One turn of the loop: at most one event, handed to the assembler. */
    method Turn(input: Bytes) returns (result: Result<bool, ErrorKind>, rest: Bytes)
      requires IsValid() && !failed && !terminal && pending == []
      modifies this, parser
      ensures failed == old(failed) && total <= limits.maxTotal
      ensures parser.limits == Limits(limits.maxLine, limits.maxEvent) && parser.IsValid()
      ensures |rest| <= |input| && rest == input[|input| - |rest|..]
      ensures Turned(old(Owes(input)), result, Owes(rest))
      ensures result.Ok? ==> IsValid() && (terminal ==> pending != [])
      ensures result == Ok(true) ==> |rest| < |input|
      ensures result == Ok(false) ==> rest == [] && pending == [] && !terminal
    {
      ghost var here := State();
      var parsed, n := Pull(input);
      rest := input[n..];
      ghost var after := parser.State();
      if parsed.Err? {
        TurnedFailed(event, limits, here, input, parsed.error, after, n, Owes(rest));
        return Err(parsed.error), rest;
      }
      if parsed.value.None? {
        TurnedSilently(event, limits, here, input, after);
        return Ok(false), rest;
      }
      var refused := Accept(parsed.value.value);
      EventOwed(event, limits, here, input, n, parsed.value.value, after, refused, pending, terminal, assembly);
      assert parser.State() == after && State() == Core(after, assembly, here.total + n);
      result := if refused.Some? then Err(refused.value) else Ok(true);
    }

    /** One parser call on no more bytes than the total limit allows. */
    method Pull(input: Bytes) returns (parsed: Sse.Decoded, consumed: nat)
      requires IsValid() && !failed && !terminal
      modifies this`total, parser
      ensures total <= limits.maxTotal && parser.IsValid() && consumed <= |input|
      ensures parsed.Ok? ==> IsValid() && total == old(total) + consumed
      ensures parsed == Ok(None) ==> consumed == |input|
      ensures parsed.Ok? && parsed.value.Some? ==> consumed > 0
      ensures Pulled(event, limits, old(State()), input, parsed, parser.State(), consumed)
    {
      ghost var here := State();
      var remaining := limits.maxTotal - total;
      if remaining == 0 && input != [] {
        PulledNothing(event, limits, here, input, parser.State());
        return Err(Undecodable), 0;
      }
      var bounded := if |input| <= remaining then input else input[..remaining];
      var unread;
      parsed, unread := parser.Decode(bounded);
      PulledView(event, limits, here, input, bounded, parsed, unread, parser.State());
      consumed := |bounded| - |unread|;
      total := total + consumed;
      if parsed == Ok(None) && total == limits.maxTotal && consumed < |input| {
        PulledToLimit(event, limits, here, input, parser.State(), consumed);
        parsed := Err(Undecodable);
      }
    }

    /** Hands one event to the assembler and queues its deltas. */
    method Accept(e: SseEvent) returns (refused: Option<ErrorKind>)
      requires pending == [] && !terminal
      modifies this
      ensures failed == old(failed) && total == old(total)
      ensures Accepted(Assemble(event, old(assembly), e, limits.maxPending), refused, pending, terminal, assembly)
    {
      var assembled := event(assembly, e);
      if assembled.Err? {
        return Some(assembled.error);
      }
      var (next, deltas) := assembled.value;
      assembly := next;
      if |deltas| > limits.maxPending {
        return Some(Undecodable);
      }
      terminal := HasDone(deltas);
      pending := pending + deltas;
      assert pending == deltas;
      refused := None;
    }

    /** End of input: only a terminal makes it a success. */
    method Finish() returns (result: Result<(), ErrorKind>)
      requires IsValid()
      modifies this, parser
      ensures result == if old(failed) then Err(InvalidRequest)
                        else if old(terminal) then Ok(())
                        else if AtEnd(old(State()).sse).Err? then AtEnd(old(State()).sse)
                        else Err(UnknownOutcome)
      ensures failed == (old(failed) || !old(terminal)) && terminal == old(terminal)
    {
      if failed {
        return Err(InvalidRequest);
      }
      if terminal {
        return Ok(());
      }
      failed := true;
      var ended := parser.Finish();
      if ended.Err? {
        return Err(ended.error);
      }
      result := Err(UnknownOutcome);
    }

    /** Calls `Decode` on one chunk until it has nothing to give. */
    method Drain(chunk: Bytes) returns (deltas: seq<StreamDelta>, error: Option<ErrorKind>)
      requires IsValid() && !failed
      modifies this, parser
      ensures IsValid() && failed == error.Some?
      ensures old(Owes(chunk)) == if error.Some? then Halt(deltas, Failed(error.value)) else After(deltas, Owes([]))
      ensures error.None? ==> Owes([]).out == [] && pending == []
    {
      ghost var owed := Owes(chunk);
      var rest := chunk;
      deltas, error := [], None;
      NothingOwed(owed);
      while true
        invariant IsValid() && !failed && error == None
        invariant |rest| <= |chunk|
        invariant owed == After(deltas, Owes(rest))
        decreases |rest|, |pending|
      {
        var result;
        var was := rest;
        ghost var owing := Owes(rest);
        result, rest := Decode(rest);
        if result.Err? {
          error := Some(result.error);
          assert deltas + [] == deltas;
          return;
        }
        if result.value.None? {
          return;
        }
        AfterTwice(deltas, [result.value.value], Owes(rest));
        deltas := deltas + [result.value.value];
      }
    }
  }

  lemma NothingOwed<S>(o: Outlook<S>)
    ensures After([], o) == o
  {
    assert [] + o.out == o.out;
  }

  lemma AfterTwice<S>(a: seq<StreamDelta>, b: seq<StreamDelta>, o: Outlook<S>)
    ensures After(a, After(b, o)) == After(a + b, o)
  {
    assert a + (b + o.out) == a + b + o.out;
  }

  lemma NothingPending<S>(asm: Assembler<S>, lim: StreamLimits, c: Core<Framing, S>, input: Bytes)
    ensures Outstanding(asm, lim, [], false, c, input) == ByteRun(asm, lim, c, input)
  {
    NothingOwed(ByteRun(asm, lim, c, input));
  }

  lemma Popped<S>(asm: Assembler<S>, lim: StreamLimits, pending: seq<StreamDelta>, terminal: bool,
                  c: Core<Framing, S>, input: Bytes)
    requires pending != []
    ensures Outstanding(asm, lim, pending, terminal, c, input) ==
            After([pending[0]], Outstanding(asm, lim, pending[1..], terminal, c, input))
  {
    assert pending == [pending[0]] + pending[1..];
    AfterTwice([pending[0]], pending[1..], ByteRun(asm, lim, c, input));
  }

  /** The rest of the bytes, after a first chunk. */
  lemma OneChunk<S>(asm: Assembler<S>, lim: StreamLimits, c: Core<Framing, S>, chunk: Bytes, later: Bytes)
    ensures var first := ByteRun(asm, lim, c, chunk);
            && (first.Halt? ==> ByteRun(asm, lim, c, chunk + later) == first)
            && (first.Go? ==> ByteRun(asm, lim, c, chunk + later) == After(first.out, ByteRun(asm, lim, first.next, later)))
  {
    RunConcat(ByteStepper(FrameOf(lim), asm, lim), c, chunk, later);
  }

  /**
   Chunk after chunk, until the stream ends or fails: exactly the deltas and the outcome of the
   byte machine on the uncut bytes.
   */
  method DecodeAll<S(!new)>(limits: StreamLimits, event: Assembler<S>, initial: S, chunks: seq<Bytes>)
    returns (deltas: seq<StreamDelta>, outcome: Option<Stop>, decoder: StreamDecoder<S>)
    ensures decoder.IsValid() && decoder.total <= limits.maxTotal
    ensures ByteRun(event, limits, Core(Fresh, initial, 0), Flatten(chunks)) ==
            if outcome.Some? then Halt(deltas, outcome.value) else Go(deltas, decoder.State())
  {
    decoder := new StreamDecoder(limits, event, initial);
    deltas, outcome := [], None;
    ghost var run := ByteRun(event, limits, Core(Fresh, initial, 0), Flatten(chunks));
    NothingOwed(run);
    var i := 0;
    while i < |chunks|
      invariant 0 <= i <= |chunks|
      invariant fresh(decoder) && fresh(decoder.parser) && decoder.limits == limits && decoder.event == event
      invariant decoder.IsValid() && !decoder.failed && !decoder.terminal && decoder.pending == [] && outcome == None
      invariant run == After(deltas, ByteRun(event, limits, decoder.State(), Flatten(chunks[i..])))
    {
      ghost var here, later := decoder.State(), Flatten(chunks[i + 1..]);
      assert chunks[i..][1..] == chunks[i + 1..];
      OneChunk(event, limits, here, chunks[i], later);
      NothingPending(event, limits, here, chunks[i]);
      var more, error := decoder.Drain(chunks[i]);
      assert more + [] == more;
      NothingPending(event, limits, decoder.State(), []);
      AfterTwice(deltas, more, ByteRun(event, limits, decoder.State(), later));
      deltas := deltas + more;
      if error.Some? {
        outcome := Some(Failed(error.value));
        return;
      }
      if decoder.terminal {
        outcome := Some(Finished);
        return;
      }
      i := i + 1;
    }
    assert chunks[i..] == [] && deltas + [] == deltas;
  }
}
