/** One batch from declarations to results: reject, prepare, dispatch, finish. */
module Processing {
  import opened Wrappers
  import opened Json
  import opened Blocks
  import opened ToolBatches
  import opened Handoff
  import opened Dispatch

  /** The tools bound for a batch, its processors, and how the tasks will be seen to run. */
  datatype Binding = Binding(targets: set<string>, before: seq<Processor>, after: seq<Processor>,
                             rejection: string -> Json, schedule: seq<Event>)

  /** How far processing came: refused at once, in the before phase, at dispatch, or past it. */
  datatype Stage = Refused | Preparing | Dispatching | Concluding

  /**
   An account of one processing: the batch as it went to dispatch and as it came back, the calls
   started, the results accepted, and how many of the scheduled events were taken.
   */
  datatype Account = Account(stage: Stage, dispatched: Batch, collected: Batch, started: set<BlockId>, accepted: Answers,
                             taken: nat)

  function NoAccount(stage: Stage, b: Batch): Account {
    Account(stage, b, b, {}, map[], 0)
  }

  /** Calls without a bound tool have their rejections, and nothing else changed. */
  ghost predicate Screened(binding: Binding, before: Batch, after: Batch) {
    && Sound(before) && Sound(after)
    && Dispatched(before, after, Rejections(View(before.entries), binding.targets, binding.rejection))
    && EachRejected(before, after, binding.targets, binding.rejection)
  }

  /** The before phase as a whole: screened, processed, and screened again. */
  ghost predicate Prepared(binding: Binding, first: Batch, dispatched: Batch) {
    exists screened: Batch, given: Batch ::
      && Screened(binding, first, screened)
      && PhaseOutcome(binding.before, screened, Before, given, false, None)
      && Screened(binding, given, dispatched)
  }

  /** Why nothing was dispatched: control, or the outcome of the before phase. */
  ghost predicate PrepareFails(binding: Binding, first: Batch, here: Batch, stopped: bool, error: ProcessingError) {
    || (error.Stopped? && stopped)
    || exists screened: Batch ::
         Screened(binding, first, screened) && PhaseOutcome(binding.before, screened, Before, here, stopped, Some(error))
  }

  /** Everything there is to say of the dispatch itself. */
  ghost predicate DispatchTold(binding: Binding, a: Account, stopped: bool, error: Option<ProcessingError>) {
    && Sound(a.dispatched) && Sound(a.collected)
    && Settlement(a.dispatched, a.collected, a.started, a.accepted)
    && EachSettled(a.dispatched, a.collected, a.started, a.accepted)
    && Observed(binding.schedule, a.taken, PendingIds(a.dispatched), a.started, a.accepted)
    && EndedBy(binding.schedule, a.taken, PendingIds(a.dispatched), a.accepted, stopped, error)
  }

  /** A dispatch that answered everything. */
  ghost predicate Collected(binding: Binding, a: Account) {
    && Sound(a.dispatched) && Sound(a.collected) && a.collected.completed == |a.collected.entries|
    && Dispatched(a.dispatched, a.collected, a.accepted) && a.accepted.Keys == a.started == PendingIds(a.dispatched)
    && Observed(binding.schedule, a.taken, PendingIds(a.dispatched), a.started, a.accepted)
    && NoneStrays(binding.schedule, a.taken, PendingIds(a.dispatched))
  }

  /** How a fully processed batch came about. */
  ghost predicate Processed(binding: Binding, a: Account, first: Batch, last: Batch) {
    && Sound(first) && Sound(last)
    && Prepared(binding, first, a.dispatched) && Collected(binding, a)
    && Transition(Capture(first), Capture(a.dispatched), Before)
    && Transition(Capture(a.collected), Capture(last), After)
    && PhaseOutcome(binding.after, a.collected, After, last, false, None)
    && last.completed == |last.entries|
  }

  /** What an interrupted batch holds, stage by stage, and what interrupted it. */
  ghost predicate Interrupted(binding: Binding, a: Account, first: Batch, here: Batch, stopped: bool,
                              error: ProcessingError)
  {
    match a.stage
    case Refused =>
      && here == first
      && if Sound(first) then error == NotFreshBatch(first.completed) && first.completed != 0
         else error.InvalidBatch? && Faulty(first, error.error)
    case Preparing => Sound(first) && PrepareFails(binding, first, here, stopped, error)
    case Dispatching =>
      && Sound(first) && Prepared(binding, first, a.dispatched) && here == a.collected
         && DispatchTold(binding, a, stopped, Some(error))
    case Concluding =>
      && Sound(first) && Prepared(binding, first, a.dispatched) && Collected(binding, a)
      && PhaseOutcome(binding.after, a.collected, After, here, stopped, Some(error))
  }

  ghost predicate KeepsCalls(binding: Binding) {
    AllKeepMembers(binding.before) && AllKeepMembers(binding.after)
  }

  /**
   Processes a fresh batch. Interrupted at dispatch, it keeps the accepted results, records started
   calls without one as unknown and leaves the others pending; every interruption has its cause;
   however it ends, well-behaved processors leave the batch its declarations.
   */
  method Process(batch: ToolBatch, ids: IdSource, control: Control, binding: Binding)
    returns (error: Option<ProcessingError>, ghost account: Account)
    requires ids as object != batch && control as object != batch && control as object != ids && ids.Valid()
    modifies batch, ids, control
    ensures ids.next >= old(ids.next)
    ensures error.None? ==> Processed(binding, account, old(batch.Current()), batch.Current())
    ensures error.Some? ==>
              Interrupted(binding, account, old(batch.Current()), batch.Current(), control.HasStopped(), error.value)
    ensures !Sound(old(batch.Current())) || old(batch.completed) != 0 <==> account.stage.Refused?
    ensures error.None? || KeepsCalls(binding) ==> Members(batch.entries) == Members(old(batch.entries))
  {
    account := NoAccount(Refused, batch.Current());
    var invalid := batch.Validate();
    if invalid.Some? {
      error := Some(InvalidBatch(invalid.value));
      return;
    }
    if batch.completed != 0 {
      error := Some(NotFreshBatch(batch.completed));
      return;
    }
    error := Prepare(batch, ids, control, binding);
    account := NoAccount(Preparing, batch.Current());
    if error.Some? {
      return;
    }
    error, account := Run(batch, ids, control, binding);
    if error.None? {
      account := account.(stage := Concluding);
      error := Conclude(batch, control, binding.after);
    }
  }

  method Run(batch: ToolBatch, ids: IdSource, control: Control, binding: Binding)
    returns (error: Option<ProcessingError>, ghost account: Account)
    requires ids as object != batch && control as object != batch && control as object != ids && ids.Valid()
    requires Sound(batch.Current()) && AllBound(batch.Current(), binding.targets)
    modifies batch, ids, control
    ensures ids.next >= old(ids.next)
    ensures account.stage.Dispatching? && account.dispatched == old(batch.Current()) && account.collected == batch.Current()
    ensures DispatchTold(binding, account, control.HasStopped(), error)
    ensures error.None? ==> Collected(binding, account)
    ensures Members(batch.entries) == Members(old(batch.entries))
  {
    ghost var dispatched := batch.Current();
    var started, accepted;
    ghost var taken;
    error, started, accepted, taken := DispatchCalls(batch, ids, control, binding.targets, binding.schedule);
    account := Account(Dispatching, dispatched, batch.Current(), started, accepted, taken);
    if error.None? {
      FinalOfAll(started, accepted);
    }
    MembersAreKeys(old(batch.entries));
    MembersAreKeys(batch.entries);
  }

  lemma FinalOfAll(started: set<BlockId>, accepted: Answers)
    requires accepted.Keys == started
    ensures Final(started, accepted) == accepted
  {
  }

  function AsError(invalid: Option<BatchError>): Option<ProcessingError> {
    match invalid
    case None => None
    case Some(e) => Some(InvalidBatch(e))
  }

  /** A batch that is not complete has a call without a result. */
  lemma {:induction false} OpenCall(b: Batch)
    requires Sound(b)
    ensures b.completed < |b.entries| ==> exists id :: id in View(b.entries) && View(b.entries)[id].result.None?
  {
    if b.completed < |b.entries| {
      var e := b.entries[b.completed];
      assert Placed(b, b.completed) && e.Id() in View(b.entries) && View(b.entries)[e.Id()] == e;
    }
  }

  lemma {:induction false} CompleteCall(b: Batch, id: BlockId)
    requires Sound(b) && b.completed == |b.entries| && id in View(b.entries)
    ensures View(b.entries)[id].result.Some?
  {
    var i :| 0 <= i < |b.entries| && b.entries[i].Id() == id;
    assert Placed(b, i) && View(b.entries)[b.entries[i].Id()] == b.entries[i];
  }

  /** The after phase leaves a complete batch complete. */
  lemma {:induction false} StaysComplete(before: Batch, after: Batch)
    requires Sound(before) && Sound(after) && Transition(Capture(before), Capture(after), After)
    requires before.completed == |before.entries|
    ensures after.completed == |after.entries|
  {
    SameMembers(Capture(before), Capture(after), After);
    forall id | id in View(after.entries) ensures View(after.entries)[id].result.Some? {
      CompleteCall(before, id);
      PhaseOfEntry(before, after, After, id);
    }
    OpenCall(after);
  }

  /** The after phase, and the check that everything has a result, which cannot fail any more. */
  method Conclude(batch: ToolBatch, control: Control, after: seq<Processor>) returns (error: Option<ProcessingError>)
    requires control as object != batch && Sound(batch.Current()) && batch.completed == |batch.entries|
    modifies batch, control
    ensures error.None? ==> && Sound(batch.Current()) && batch.completed == |batch.entries|
                            && Transition(Capture(old(batch.Current())), Capture(batch.Current()), After)
                            && PhaseOutcome(after, old(batch.Current()), After, batch.Current(), false, None)
    ensures error.Some? ==> PhaseOutcome(after, old(batch.Current()), After, batch.Current(), control.HasStopped(), error)
    ensures error.None? || AllKeepMembers(after) ==> Members(batch.entries) == Members(old(batch.entries))
  {
    ghost var before := batch.Current();
    error := ProcessPhase(after, batch, control, After);
    if error.Some? {
      return;
    }
    var invalid := batch.Validate();
    error := AsError(invalid);
    if error.None? && batch.completed != |batch.entries| {
      error := Some(InvalidBatch(Incomplete(batch.completed, |batch.entries|)));
    }
    StaysComplete(before, batch.Current());
    SameCalls(before, batch.Current(), After);
  }

  /** Everything before dispatch; afterwards every pending call is bound. */
  method Prepare(batch: ToolBatch, ids: IdSource, control: Control, binding: Binding)
    returns (error: Option<ProcessingError>)
    requires ids as object != batch && control as object != batch && control as object != ids && ids.Valid()
    requires Sound(batch.Current())
    modifies batch, ids, control
    ensures ids.next >= old(ids.next)
    ensures error.None? ==> && Sound(batch.Current()) && AllBound(batch.Current(), binding.targets)
                            && Transition(Capture(old(batch.Current())), Capture(batch.Current()), Before)
                            && Prepared(binding, old(batch.Current()), batch.Current())
    ensures error.Some? ==> PrepareFails(binding, old(batch.Current()), batch.Current(), control.HasStopped(), error.value)
    ensures error.None? || AllKeepMembers(binding.before) ==> Members(batch.entries) == Members(old(batch.entries))
  {
    ghost var initial, first := batch.Current(), Capture(batch.Current());
    var stopped := control.IsStopped();
    if stopped {
      return Some(Stopped);
    }
    error := RejectUnbound(batch, ids, binding.targets, binding.rejection);
    ghost var screened, second := batch.Current(), Capture(batch.Current());
    error := ProcessPhase(binding.before, batch, control, Before);
    if error.Some? {
      return;
    }
    ghost var given, third := batch.Current(), Capture(batch.Current());
    stopped := control.IsStopped();
    if stopped {
      return Some(Stopped);
    }
    error := RejectUnbound(batch, ids, binding.targets, binding.rejection);
    assert Screened(binding, initial, screened) && Screened(binding, given, batch.Current());
    TransitionTransitive(first, second, third, Before);
    TransitionTransitive(first, third, Capture(batch.Current()), Before);
    SameCalls(initial, batch.Current(), Before);
  }

  // -- what a processed batch says of each declaration ------------------------------------

  function NotesOf(e: Entry): seq<string> {
    SnapshotOf(e).notes
  }

  function ToolNotes(accepted: Answers, id: BlockId): seq<string> {
    if id in accepted then accepted[id].notes else []
  }

  /** How dispatch left an entry: what was pending holds its own result, notes in order. */
  lemma CollectedEntry(dispatched: Batch, collected: Batch, accepted: Answers, id: BlockId)
    requires Sound(dispatched) && Sound(collected) && Dispatched(dispatched, collected, accepted)
    requires accepted.Keys == PendingIds(dispatched) && id in View(dispatched.entries)
    ensures id in View(collected.entries)
    ensures var was, now := View(dispatched.entries)[id], View(collected.entries)[id];
            && now.result.Some? && now.call.input == was.call.input
            && NotesOf(now) == NotesOf(was) + ToolNotes(accepted, id)
            && (id in accepted ==> now.result.value.payload.status == accepted[id].status
                                   && now.result.value.payload.(notes := []) == accepted[id].(notes := []))
            && (id !in accepted ==> now == was) && (was.result.Some? <==> id !in accepted)
  {
    PendingIsOpen(dispatched, id);
    FateOfEntry(View(dispatched.entries)[id], View(collected.entries)[id], accepted, id);
  }

  lemma FateOfEntry(was: Entry, now: Entry, accepted: Answers, id: BlockId)
    requires was.Id() == id && Fate(was, now, accepted) && (was.result.None? <==> id in accepted)
    ensures now.result.Some? && now.call.input == was.call.input
    ensures NotesOf(now) == NotesOf(was) + ToolNotes(accepted, id)
    ensures id in accepted ==> now.result.value.payload.status == accepted[id].status
                               && now.result.value.payload.(notes := []) == accepted[id].(notes := [])
    ensures id !in accepted ==> now == was
  {
    if id !in accepted {
      assert NotesOf(was) + [] == NotesOf(was);
    }
  }

  /** An accepted phase treats each entry as its snapshots say. */
  lemma PhaseOfEntry(before: Batch, after: Batch, phase: Phase, id: BlockId)
    requires Sound(before) && Sound(after) && Transition(Capture(before), Capture(after), phase)
    requires id in View(before.entries)
    ensures id in View(after.entries)
    ensures EntryMayBecome(SnapshotOf(View(before.entries)[id]), SnapshotOf(View(after.entries)[id]), phase)
  {
    SameMembers(Capture(before), Capture(after), phase);
    assert id in Capture(before).entries && id in Capture(after).entries;
  }

  /** What the before phase leaves of an entry. */
  lemma {:induction false} PreparedEntry(first: Batch, dispatched: Batch, id: BlockId)
    requires Sound(first) && Sound(dispatched) && Transition(Capture(first), Capture(dispatched), Before)
    requires id in View(first.entries)
    ensures id in View(dispatched.entries)
    ensures NotesOf(View(first.entries)[id]) <= NotesOf(View(dispatched.entries)[id])
  {
    PhaseOfEntry(first, dispatched, Before, id);
  }

  lemma ResultStays(was: Entry, now: Entry)
    requires was.result.Some? && EntryMayBecome(SnapshotOf(was), SnapshotOf(now), After)
    ensures now.result.Some? && NotesOf(was) <= NotesOf(now) && now.call.input == was.call.input
    ensures now.result.value.id == was.result.value.id
    ensures now.result.value.payload.status == was.result.value.payload.status
  {
  }

  /** What the after phase leaves of an entry. */
  lemma FinishedEntry(collected: Batch, last: Batch, id: BlockId)
    requires Sound(collected) && Sound(last) && Transition(Capture(collected), Capture(last), After)
    requires id in View(collected.entries) && View(collected.entries)[id].result.Some?
    ensures id in View(last.entries)
    ensures var was, now := View(collected.entries)[id], View(last.entries)[id];
            && now.result.Some? && now.result.value.payload.callBlockId == id
            && NotesOf(was) <= NotesOf(now) && now.call.input == was.call.input
            && now.result.value.id == was.result.value.id
            && now.result.value.payload.status == was.result.value.payload.status
  {
    PhaseOfEntry(collected, last, After, id);
    ResultStays(View(collected.entries)[id], View(last.entries)[id]);
    ResultIsOwn(last, id);
  }

  /** Among the events taken is the return of the call's task with this result. */
  predicate ToolReturned(schedule: seq<Event>, taken: nat, id: BlockId, payload: ToolResult) {
    taken <= |schedule| && exists k :: 0 <= k < taken && schedule[k] == Returned(id, payload)
  }

  lemma {:induction false} TakenReturned(schedule: seq<Event>, n: nat, pending: set<BlockId>, id: BlockId)
    requires n <= |schedule| && id in Answered(pending, schedule[..n])
    ensures ToolReturned(schedule, n, id, Answered(pending, schedule[..n])[id])
  {
    AnsweredFirst(pending, schedule[..n], id);
    var k :| 0 <= k < n && schedule[..n][k] == Returned(id, Answered(pending, schedule[..n])[id]);
    assert schedule[k] == schedule[..n][k];
  }

  lemma {:induction false} AcceptedReturned(binding: Binding, a: Account, id: BlockId)
    requires Collected(binding, a) && id in a.accepted
    ensures ToolReturned(binding.schedule, a.taken, id, a.accepted[id])
  {
    TakenReturned(binding.schedule, a.taken, PendingIds(a.dispatched), id);
  }

  /**
   When processing succeeds, every declaration has exactly one result, of its own, whose notes are
   those taken before dispatch, then the tool's, then those of the after phase; a call that was
   pending has what its task returned, with that status, and its input is the one dispatched. A
   call rejected before dispatch is never sent to a tool, and its result keeps its id and status.
   */
  lemma ProcessedContract(binding: Binding, a: Account, first: Batch, last: Batch, id: BlockId)
    requires Processed(binding, a, first, last) && id in View(first.entries)
    ensures id in View(a.dispatched.entries) && id in View(last.entries)
    ensures var was, sent, now := View(first.entries)[id], View(a.dispatched.entries)[id], View(last.entries)[id];
            && now.result.Some? && now.result.value.payload.callBlockId == id
            && NotesOf(was) <= NotesOf(sent)
            && NotesOf(sent) + ToolNotes(a.accepted, id) <= NotesOf(now)
            && now.call.input == sent.call.input
            && (id in a.accepted ==> now.result.value.payload.status == a.accepted[id].status
                                     && ToolReturned(binding.schedule, a.taken, id, a.accepted[id]))
            && (sent.result.Some? <==> id !in a.accepted)
            && (sent.result.Some? ==> SnapshotOf(now).completed == SnapshotOf(sent).completed)
  {
    PreparedEntry(first, a.dispatched, id);
    CollectedEntry(a.dispatched, a.collected, a.accepted, id);
    FinishedEntry(a.collected, last, id);
    if id in a.accepted {
      AcceptedReturned(binding, a, id);
    }
  }

  lemma ResultIsOwn(b: Batch, id: BlockId)
    requires Sound(b) && id in View(b.entries) && View(b.entries)[id].result.Some?
    ensures View(b.entries)[id].result.value.payload.callBlockId == id
  {
    var i :| 0 <= i < |b.entries| && b.entries[i].Id() == id;
    assert Placed(b, i) && View(b.entries)[b.entries[i].Id()] == b.entries[i];
  }
}
