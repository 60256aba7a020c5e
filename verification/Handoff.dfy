/**
 Processors may change a batch in any way; what a phase accepts of their work is checked
 against a snapshot taken before each of them.
 */
module Handoff {
  import opened Wrappers
  import opened Blocks
  import opened ToolBatches

  datatype Phase = Before | After

  datatype EntrySnapshot = EntrySnapshot(completed: Option<(BlockId, Status)>, input: ToolInput, notes: seq<string>)

  datatype Snapshot = Snapshot(entries: map<BlockId, EntrySnapshot>, completedLen: nat)

  function SnapshotOf(e: Entry): EntrySnapshot {
    EntrySnapshot(if e.result.Some? then Some((e.result.value.id, e.result.value.payload.status)) else None,
                  e.call.input,
                  if e.result.Some? then e.result.value.payload.notes else e.call.resultNotes)
  }

  function Capture(b: Batch): (s: Snapshot)
    requires DistinctDeclarations(b.entries)
    ensures s.entries.Keys == View(b.entries).Keys && s.completedLen == b.completed
    ensures forall id :: id in s.entries ==> s.entries[id] == SnapshotOf(View(b.entries)[id])
  {
    var v := View(b.entries);
    Snapshot(map id | id in v :: SnapshotOf(v[id]), b.completed)
  }

  /** What one entry may become. */
  predicate EntryMayBecome(before: EntrySnapshot, after: EntrySnapshot, phase: Phase) {
    && (before.completed.Some? ==> after.completed == before.completed)
    && (before.completed.None? && after.completed.Some? ==> phase == Before)
    && (before.completed.Some? || phase == After ==> before.input == after.input)
    && before.notes <= after.notes
  }

  predicate Transition(before: Snapshot, after: Snapshot, phase: Phase) {
    && |before.entries| == |after.entries| && (forall id :: id in before.entries ==> id in after.entries)
    && before.completedLen <= after.completedLen
    && forall id :: id in before.entries ==> EntryMayBecome(before.entries[id], after.entries[id], phase)
  }

  // -- what any accepted chain keeps ------------------------------------------------------

  lemma SameSize(a: set<BlockId>, b: set<BlockId>)
    requires a <= b && |a| == |b|
    ensures a == b
  {
    assert b == a + (b - a) && |b - a| == |b| - |a|;
  }

  lemma SameMembers(before: Snapshot, after: Snapshot, phase: Phase)
    requires Transition(before, after, phase)
    ensures before.entries.Keys == after.entries.Keys
  {
    assert |before.entries| == |before.entries.Keys| && |after.entries| == |after.entries.Keys|;
    SameSize(before.entries.Keys, after.entries.Keys);
  }

  /** An accepted transition is about the same declarations. */
  lemma SameCalls(before: Batch, after: Batch, phase: Phase)
    requires DistinctDeclarations(before.entries) && DistinctDeclarations(after.entries)
    requires Transition(Capture(before), Capture(after), phase)
    ensures Members(before.entries) == Members(after.entries)
  {
    SameMembers(Capture(before), Capture(after), phase);
    MembersAreKeys(before.entries);
    MembersAreKeys(after.entries);
  }

  lemma TransitionReflexive(s: Snapshot, phase: Phase)
    ensures Transition(s, s, phase)
  {
  }

  /** The checks between neighbours add up: whatever a chain of processors did, one check covers it. */
  lemma TransitionTransitive(a: Snapshot, b: Snapshot, c: Snapshot, phase: Phase)
    requires Transition(a, b, phase) && Transition(b, c, phase)
    ensures Transition(a, c, phase)
  {
    SameMembers(a, b, phase);
    SameMembers(b, c, phase);
    forall id | id in a.entries ensures EntryMayBecome(a.entries[id], c.entries[id], phase) {
      NotesChain(a.entries[id].notes, b.entries[id].notes, c.entries[id].notes);
    }
  }

  lemma NotesChain(a: seq<string>, b: seq<string>, c: seq<string>)
    requires a <= b <= c
    ensures a <= c
  {
    assert c[..|a|] == b[..|a|];
  }

  /** The chain of snapshots a phase accepted. */
  predicate AcceptedChain(chain: seq<Snapshot>, phase: Phase) {
    forall k :: 0 <= k < |chain| - 1 ==> Transition(chain[k], chain[k + 1], phase)
  }

  lemma {:induction false} ChainKeeps(chain: seq<Snapshot>, phase: Phase)
    requires chain != [] && AcceptedChain(chain, phase)
    ensures Transition(chain[0], chain[|chain| - 1], phase)
    decreases |chain|
  {
    if |chain| == 1 {
      TransitionReflexive(chain[0], phase);
    } else {
      var last := |chain| - 1;
      assert AcceptedChain(chain[..last], phase) by {
        forall k | 0 <= k < last - 1 ensures Transition(chain[..last][k], chain[..last][k + 1], phase) {
          assert Transition(chain[k], chain[k + 1], phase);
        }
      }
      ChainKeeps(chain[..last], phase);
      assert Transition(chain[last - 1], chain[last - 1 + 1], phase);
      TransitionTransitive(chain[0], chain[last - 1], chain[last], phase);
    }
  }

  // -- a phase ------------------------------------------------------------------------------

  /** A processor's run: it leaves any batch behind, and finishes, fails or is cut short by a stop. */
  datatype Ran = Finished(batch: Batch) | Failed(batch: Batch) | CutShort(batch: Batch)

  type Processor = Batch -> Ran

  /** A processor that never adds, drops or replaces a declaration, however it ends. */
  ghost predicate KeepsMembers(p: Processor) {
    forall b :: Members(p(b).batch.entries) == Members(b.entries)
  }

  ghost predicate AllKeepMembers(processors: seq<Processor>) {
    forall k :: 0 <= k < |processors| ==> KeepsMembers(processors[k])
  }

  datatype ProcessingError =
    | InvalidBatch(error: BatchError)
    | NotFreshBatch(completed: nat)
    | Stopped
    | ProcessorFailed(phase: Phase, index: nat)
    | InvalidProcessorBatch(phase: Phase, index: nat, error: BatchError)
    | HandoffRefused(phase: Phase, index: nat)
    | ResultRejected(id: BlockId, error: BatchError)

  /** Cooperative control: once stopped it stays stopped; any check may be the first to see it. */
  class Control {
    const stopAt: Option<nat>
    var ticks: nat

    constructor (stopAt: Option<nat>)
      ensures this.stopAt == stopAt && ticks == 0
    {
      this.stopAt := stopAt;
      ticks := 0;
    }

    /** Some check has seen the stop. */
    predicate HasStopped()
      reads this
    {
      stopAt.Some? && stopAt.value < ticks
    }

    method IsStopped() returns (stopped: bool)
      modifies this
      ensures ticks == old(ticks) + 1
      ensures stopped == HasStopped()
    {
      stopped := stopAt.Some? && stopAt.value <= ticks;
      ticks := ticks + 1;
    }
  }

  // -- how a phase ends -----------------------------------------------------------------------

  /** The batch as the first `k` processors leave it. */
  function Fed(processors: seq<Processor>, b: Batch, k: nat): Batch
    requires k <= |processors|
  {
    if k == 0 then b else processors[k - 1](Fed(processors, b, k - 1)).batch
  }

  /** Processor `k` finishes with a batch that may follow the one it was given. */
  predicate Passes(processors: seq<Processor>, b: Batch, k: nat, phase: Phase)
    requires k < |processors|
  {
    var given, ran := Fed(processors, b, k), processors[k](Fed(processors, b, k));
    && ran.Finished? && Sound(given) && Sound(ran.batch)
    && Transition(Capture(given), Capture(ran.batch), phase)
  }

  /** What ended the phase at processor `k`, which left the batch `here`. */
  ghost predicate FailsAt(processors: seq<Processor>, b: Batch, k: nat, phase: Phase, here: Batch, error: ProcessingError)
    requires k < |processors|
  {
    var given, ran := Fed(processors, b, k), processors[k](Fed(processors, b, k));
    && here == ran.batch
    && match error
       case Stopped => ran.CutShort?
       case ProcessorFailed(p, i) => p == phase && i == k && ran.Failed?
       case InvalidProcessorBatch(p, i, e) => p == phase && i == k && ran.Finished? && !Sound(here) && Faulty(here, e)
       case HandoffRefused(p, i) =>
         && p == phase && i == k && ran.Finished? && Sound(given) && Sound(here)
         && !Transition(Capture(given), Capture(here), phase)
       case _ => false
  }

  /** Where the phase ends: at a look at control before processor `k`, or by what that processor did. */
  ghost predicate EndsAt(processors: seq<Processor>, b: Batch, k: nat, phase: Phase, here: Batch, stopped: bool,
                         error: ProcessingError)
  {
    && k < |processors| && (forall j: nat :: j < k ==> Passes(processors, b, j, phase))
    && ((stopped && error.Stopped? && here == Fed(processors, b, k)) || FailsAt(processors, b, k, phase, here, error))
  }

  /** All that a phase over a sound batch may come to. */
  ghost predicate PhaseOutcome(processors: seq<Processor>, b: Batch, phase: Phase, here: Batch, stopped: bool,
                               error: Option<ProcessingError>)
  {
    match error
    case None => here == Fed(processors, b, |processors|) && forall j: nat :: j < |processors| ==> Passes(processors, b, j, phase)
    case Some(e) => exists k: nat :: EndsAt(processors, b, k, phase, here, stopped, e)
  }

  /** One processor's turn, and the checks on what it leaves. */
  method RunProcessor(processors: seq<Processor>, k: nat, batch: ToolBatch, previous: Snapshot, phase: Phase,
                      ghost b: Batch)
    returns (error: Option<ProcessingError>, current: Snapshot)
    requires k < |processors| && Sound(batch.Current()) && previous == Capture(batch.Current())
    requires batch.Current() == Fed(processors, b, k)
    modifies batch
    ensures batch.Current() == Fed(processors, b, k + 1)
    ensures error.None? ==> && Passes(processors, b, k, phase) && Sound(batch.Current())
                            && current == Capture(batch.Current()) && Transition(previous, current, phase)
    ensures error.Some? ==> FailsAt(processors, b, k, phase, batch.Current(), error.value)
  {
    current := previous;
    var ran := processors[k](Batch(batch.entries, batch.completed));
    batch.entries, batch.completed := ran.batch.entries, ran.batch.completed;
    if ran.CutShort? {
      return Some(Stopped), current;
    }
    if ran.Failed? {
      return Some(ProcessorFailed(phase, k)), current;
    }
    var invalid := batch.Validate();
    if invalid.Some? {
      return Some(InvalidProcessorBatch(phase, k, invalid.value)), current;
    }
    current := Capture(Batch(batch.entries, batch.completed));
    error := if Transition(previous, current, phase) then None else Some(HandoffRefused(phase, k));
  }

  /**
   Runs a chain of processors, refusing what breaks the batch or its history. When it succeeds,
   membership, results, statuses, frozen inputs and notes have survived the whole chain.
   */
  method ProcessPhase(processors: seq<Processor>, batch: ToolBatch, control: Control, phase: Phase)
    returns (error: Option<ProcessingError>)
    requires control as object != batch
    modifies batch, control
    ensures if Sound(old(batch.Current())) then
              PhaseOutcome(processors, old(batch.Current()), phase, batch.Current(), control.HasStopped(), error)
            else
              && error.Some? && error.value.InvalidBatch? && Faulty(old(batch.Current()), error.value.error)
              && batch.Current() == old(batch.Current())
    ensures error.None? ==> && Sound(old(batch.Current())) && Sound(batch.Current())
                            && Transition(Capture(old(batch.Current())), Capture(batch.Current()), phase)
    ensures AllKeepMembers(processors) ==> Members(batch.entries) == Members(old(batch.entries))
    ensures processors == [] ==> batch.Current() == old(batch.Current()) && (Sound(batch.Current()) ==> error.None?)
  {
    var invalid := batch.Validate();
    if invalid.Some? {
      return Some(InvalidBatch(invalid.value));
    }
    ghost var first := Capture(batch.Current());
    var previous := Capture(Batch(batch.entries, batch.completed));
    TransitionReflexive(first, phase);
    ghost var b := batch.Current();
    var k: nat := 0;
    while k < |processors|
      invariant k <= |processors|
      invariant Sound(batch.Current()) && previous == Capture(batch.Current())
      invariant batch.Current() == Fed(processors, b, k) && forall j: nat :: j < k ==> Passes(processors, b, j, phase)
      invariant Transition(first, previous, phase)
      invariant AllKeepMembers(processors) ==> Members(batch.entries) == Members(old(batch.entries))
    {
      var stopped := control.IsStopped();
      if stopped {
        assert EndsAt(processors, b, k, phase, batch.Current(), control.HasStopped(), Stopped);
        return Some(Stopped);
      }
      ghost var given := batch.Current();
      var current;
      error, current := RunProcessor(processors, k, batch, previous, phase, b);
      assert batch.Current() == processors[k](given).batch;
      if error.Some? {
        assert EndsAt(processors, b, k, phase, batch.Current(), control.HasStopped(), error.value);
        return;
      }
      TransitionTransitive(first, previous, current, phase);
      previous := current;
      k := k + 1;
    }
    error := None;
  }
}
