/** Which of a run's framed events the assembler takes, position by position, and where the run ends. */
module EventsTaken {
  import opened Wrappers
  import opened Sequences
  import opened Mealy
  import opened Model
  import opened Sse
  import opened Decoder

  /** The assembler's state once it has taken the events, limits apart. */
  function StateAfter<S>(asm: Assembler<S>, s: S, events: seq<SseEvent>): Result<S, ErrorKind> {
    if events == [] then Ok(s)
    else
      var past :- StateAfter(asm, s, events[..|events| - 1]);
      var next :- asm(past, events[|events| - 1]);
      Ok(next.0)
  }

  /** What the assembler says of event `k`, all before it taken. */
  function AnswerAt<S>(asm: Assembler<S>, s: S, events: seq<SseEvent>, k: nat): Result<seq<StreamDelta>, ErrorKind>
    requires k < |events|
  {
    var past :- StateAfter(asm, s, events[..k]);
    var next :- asm(past, events[k]);
    Ok(next.1)
  }

  /** Event `k` is taken and the run goes on: no more deltas than the queue holds, and none of them `Done`. */
  predicate GoesOnAt<S>(asm: Assembler<S>, s: S, events: seq<SseEvent>, k: nat, maxPending: nat)
    requires k < |events|
  {
    var answer := AnswerAt(asm, s, events, k);
    answer.Ok? && |answer.value| <= maxPending && forall i :: 0 <= i < |answer.value| ==> !answer.value[i].Done?
  }

  predicate GoOn<S>(asm: Assembler<S>, s: S, events: seq<SseEvent>, n: nat, maxPending: nat)
    requires n <= |events|
  {
    forall k :: 0 <= k < n ==> GoesOnAt(asm, s, events, k, maxPending)
  }

  /** The deltas of the first `n` events, in order. */
  function DeltasOf<S>(asm: Assembler<S>, s: S, events: seq<SseEvent>, n: nat): seq<StreamDelta>
    requires n <= |events|
  {
    if n == 0 then []
    else
      DeltasOf(asm, s, events, n - 1)
      + match AnswerAt(asm, s, events, n - 1)
        case Ok(deltas) => deltas
        case Err(_) => []
  }

  lemma {:induction false} TakenUpTo<S>(asm: Assembler<S>, s: S, events: seq<SseEvent>, n: nat, maxPending: nat)
    requires n <= |events| && GoOn(asm, s, events, n, maxPending)
    ensures StateAfter(asm, s, events[..n]).Ok?
    ensures AssembleAll(asm, s, events[..n], maxPending) ==
            Go(DeltasOf(asm, s, events, n), StateAfter(asm, s, events[..n]).value)
    decreases n
  {
    if n > 0 {
      TakenUpTo(asm, s, events, n - 1, maxPending);
      assert GoesOnAt(asm, s, events, n - 1, maxPending);
      TakeMore(events, n - 1);
      assert events[..n][..n - 1] == events[..n - 1];
      AssembleSnoc(asm, s, events[..n - 1], events[n - 1], maxPending, DeltasOf(asm, s, events, n - 1),
                   StateAfter(asm, s, events[..n - 1]).value);
    }
  }

  /** How the run ends at the first event that does not let it go on. */
  function EndAt<S>(answer: Result<seq<StreamDelta>, ErrorKind>, maxPending: nat, before: seq<StreamDelta>)
    : Move<S, StreamDelta, Stop>
  {
    match answer
    case Err(kind) => Halt(before, Failed(kind))
    case Ok(deltas) => if |deltas| > maxPending then Halt(before, Failed(Undecodable)) else Halt(before + deltas, Finished)
  }

  /**
   Events are taken one by one until the first that is refused, overfills the queue or brings
   `Done`; there the run ends, with the deltas of all before it.
   */
  lemma {:induction false} TakenExactly<S>(asm: Assembler<S>, s: S, events: seq<SseEvent>, n: nat, maxPending: nat)
    requires n <= |events| && GoOn(asm, s, events, n, maxPending)
    requires n < |events| ==> !GoesOnAt(asm, s, events, n, maxPending)
    ensures StateAfter(asm, s, events[..n]).Ok?
    ensures AssembleAll(asm, s, events, maxPending) ==
            if n == |events| then Go(DeltasOf(asm, s, events, n), StateAfter(asm, s, events[..n]).value)
            else EndAt(AnswerAt(asm, s, events, n), maxPending, DeltasOf(asm, s, events, n))
  {
    TakenUpTo(asm, s, events, n, maxPending);
    Halves(events, n);
    AssembleConcat(asm, s, events[..n], events[n..], maxPending);
    if n == |events| {
      NoneLast(events[..n]);
    }
  }
}
