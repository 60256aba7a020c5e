/** Machines that read items one at a time, emit outputs, and may halt. */
module Mealy {

  /** One step, or a whole run: outputs, and either the next state or why it halted. */
  datatype Move<S, O, K> = Go(out: seq<O>, next: S) | Halt(out: seq<O>, why: K)

  type Machine<!S, !I, !O, !K> = (S, I) -> Move<S, O, K>

  function After<S, O, K>(out: seq<O>, move: Move<S, O, K>): Move<S, O, K> {
    move.(out := out + move.out)
  }

  function Run<S, I, O, K>(step: Machine<S, I, O, K>, s: S, input: seq<I>): Move<S, O, K>
    decreases |input|
  {
    if input == [] then Go([], s)
    else
      match step(s, input[0])
      case Halt(out, why) => Halt(out, why)
      case Go(out, next) => After(out, Run(step, next, input[1..]))
  }

  function Then<S, I, O, K>(step: Machine<S, I, O, K>, first: Move<S, O, K>, more: seq<I>): Move<S, O, K> {
    match first
    case Halt(_, _) => first
    case Go(out, next) => After(out, Run(step, next, more))
  }

  /** Running over `a` then `b` is running over `a + b`. */
  lemma {:induction false} RunConcat<S, I, O, K>(step: Machine<S, I, O, K>, s: S, a: seq<I>, b: seq<I>)
    ensures Run(step, s, a + b) == Then(step, Run(step, s, a), b)
    decreases |a|
  {
    if a == [] {
      assert a + b == b;
    } else {
      assert (a + b)[0] == a[0] && (a + b)[1..] == a[1..] + b;
      match step(s, a[0])
      case Halt(_, _) =>
      case Go(out, next) =>
        RunConcat(step, next, a[1..], b);
        var tail := Run(step, next, a[1..]);
        if tail.Go? {
          var rest := Run(step, tail.next, b);
          assert out + (tail.out + rest.out) == out + tail.out + rest.out;
        }
    }
  }

  lemma RunOne<S, I, O, K>(step: Machine<S, I, O, K>, s: S, i: I)
    ensures Run(step, s, [i]) == step(s, i)
  {
    assert [i][1..] == [];
    var move := step(s, i);
    assert move.Go? ==> move.out + [] == move.out;
  }

  /** A silent prefix can be forgotten. */
  lemma RunExtends<S, I, O, K>(step: Machine<S, I, O, K>, start: S, done: seq<I>, here: S, more: seq<I>)
    requires Run(step, start, done) == Go([], here)
    ensures Run(step, start, done + more) == Run(step, here, more)
  {
    RunConcat(step, start, done, more);
    var rest := Run(step, here, more);
    assert [] + rest.out == rest.out;
  }

  /** Where a prefix halted, the whole halts the same way. */
  lemma HaltsOnwards<S, I, O, K>(step: Machine<S, I, O, K>, s: S, a: seq<I>, b: seq<I>)
    requires Run(step, s, a).Halt?
    ensures Run(step, s, a + b) == Run(step, s, a)
  {
    RunConcat(step, s, a, b);
  }

  // -- input cut into chunks ----------------------------------------------------

  function Flatten<I>(chunks: seq<seq<I>>): seq<I> {
    if chunks == [] then [] else chunks[0] + Flatten(chunks[1..])
  }

  function RunChunks<S, I, O, K>(step: Machine<S, I, O, K>, s: S, chunks: seq<seq<I>>): Move<S, O, K>
    decreases |chunks|
  {
    if chunks == [] then Go([], s)
    else
      match Run(step, s, chunks[0])
      case Halt(out, why) => Halt(out, why)
      case Go(out, next) => After(out, RunChunks(step, next, chunks[1..]))
  }

  /** However the input is cut, the run is that of the uncut input. */
  lemma {:induction false} CutsDoNotMatter<S, I, O, K>(step: Machine<S, I, O, K>, s: S, chunks: seq<seq<I>>)
    ensures RunChunks(step, s, chunks) == Run(step, s, Flatten(chunks))
    decreases |chunks|
  {
    if chunks != [] {
      RunConcat(step, s, chunks[0], Flatten(chunks[1..]));
      var first := Run(step, s, chunks[0]);
      if first.Go? {
        CutsDoNotMatter(step, first.next, chunks[1..]);
      }
    }
  }
}
