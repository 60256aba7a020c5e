/**
 Running the pending calls of a batch side by side, under every interleaving of starts, results
 and stops, and settling what was started when the batch stops early.
 */
module Dispatch {
  import opened Wrappers
  import opened Blocks
  import opened Json
  import opened ToolBatches
  import opened Handoff

  predicate Used(b: Batch, id: BlockId) {
    IsDeclared(b.entries, id) || IsResult(b.entries, id)
  }

  /** `payload` has been recorded for `id` under the unused result id `r`, and nothing else happened. */
  predicate RecordedAs(before: Batch, after: Batch, id: BlockId, r: BlockId, payload: ToolResult)
    requires DistinctDeclarations(before.entries) && DistinctDeclarations(after.entries)
  {
    && id in View(before.entries) && !Used(before, r)
    && View(after.entries) == View(before.entries)[id := Settled(View(before.entries)[id], r, payload)]
    && after.completed == before.completed + 1 && |after.entries| == |before.entries|
  }

  ghost predicate Took(before: Batch, after: Batch, id: BlockId, payload: ToolResult)
    requires DistinctDeclarations(before.entries) && DistinctDeclarations(after.entries)
  {
    exists r :: RecordedAs(before, after, id, r, payload)
  }

  lemma PendingIsOpen(b: Batch, id: BlockId)
    requires Sound(b)
    ensures IsPending(b, id) <==> id in View(b.entries) && View(b.entries)[id].result.None?
  {
    if IsPending(b, id) {
      var i :| b.completed <= i < |b.entries| && b.entries[i].Id() == id;
      assert Placed(b, i) && View(b.entries)[b.entries[i].Id()] == b.entries[i];
    }
    if id in View(b.entries) && View(b.entries)[id].result.None? {
      var i :| 0 <= i < |b.entries| && b.entries[i].Id() == id;
      assert Placed(b, i) && View(b.entries)[b.entries[i].Id()] == b.entries[i];
    }
  }

  /** Where the pending call is. */
  method FindPending(batch: ToolBatch, id: BlockId) returns (index: Option<nat>)
    requires Sound(batch.Current())
    ensures index.Some? <==> IsPending(batch.Current(), id)
    ensures index.Some? ==> batch.completed <= index.value < |batch.entries| && batch.entries[index.value].Id() == id
  {
    var i := batch.completed;
    while i < |batch.entries|
      invariant batch.completed <= i <= |batch.entries|
      invariant forall k :: batch.completed <= k < i ==> batch.entries[k].Id() != id
    {
      if batch.entries[i].Id() == id {
        return Some(i);
      }
      i := i + 1;
    }
    index := None;
  }

  ghost function UsedIds(b: Batch): (ids: set<BlockId>)
    ensures forall id :: Used(b, id) ==> id in ids
  {
    (set i | 0 <= i < |b.entries| :: b.entries[i].Id())
    + (set i | 0 <= i < |b.entries| && b.entries[i].result.Some? :: b.entries[i].result.value.id)
  }

  /** Drawing an id that is in use leaves fewer used ones ahead. */
  lemma AheadShrinks(ids: IdSource, used: set<BlockId>, tried: nat, ahead: set<BlockId>)
    requires ids.Valid() && ids.next == tried + 1 && ids.generate(tried) in used
    requires forall id :: id in ahead <==> id in used && exists k :: k >= tried && ids.generate(k) == id
    ensures ids.Ahead(used) < ahead
  {
    assert ids.generate(tried) in ahead && ids.generate(tried) !in ids.Ahead(used);
  }

  lemma {:induction false} ResolvedTakes(before: Batch, after: Batch, index: nat, id: BlockId, r: BlockId,
                                         payload: ToolResult)
    requires Sound(before) && Sound(after) && index < |before.entries| && before.entries[index].Id() == id
    requires ToolBatches.Refusal(before, index, r, payload).None? && after == Resolved(before, index, r, payload)
    ensures Took(before, after, id, payload)
  {
    ResolvedView(before, index, r, payload);
    assert id in View(before.entries) && View(before.entries)[id] == before.entries[index];
    assert RecordedAs(before, after, id, r, payload);
  }

  /** Why a result cannot be recorded for a call. */
  function RejectedFor(b: Batch, id: BlockId, payload: ToolResult): BatchError {
    if IsPending(b, id) then MismatchedCall(id, payload.callBlockId) else InvalidPartition
  }

  /**
   Records a result under the first generated id the batch does not use yet. With a generator
   that never repeats, the search for one ends.
   */
  method Resolve(batch: ToolBatch, ids: IdSource, id: BlockId, payload: ToolResult)
    returns (error: Option<ProcessingError>)
    requires ids.Valid() && Sound(batch.Current()) && ids as object != batch
    modifies batch, ids
    ensures Sound(batch.Current()) && ids.next >= old(ids.next)
    ensures error.None? <==> IsPending(old(batch.Current()), id) && payload.callBlockId == id
    ensures error.Some? ==> batch.Current() == old(batch.Current())
                            && error.value == ResultRejected(id, RejectedFor(old(batch.Current()), id, payload))
    ensures error.None? ==> Took(old(batch.Current()), batch.Current(), id, payload)
  {
    var pending := FindPending(batch, id);
    if pending.None? {
      return Some(ResultRejected(id, InvalidPartition));
    }
    var index := pending.value;
    ghost var before := batch.Current();
    while true
      invariant Sound(batch.Current()) && batch.Current() == before && ids.next >= old(ids.next)
      decreases ids.Ahead(UsedIds(before))
    {
      ghost var ahead, tried := ids.Ahead(UsedIds(before)), ids.next;
      var fresh_ := ids.Fresh();
      var refused := batch.ResolveAt(index, fresh_, payload);
      if refused.None? {
        ResolvedTakes(before, batch.Current(), index, id, fresh_, payload);
        return None;
      }
      if !refused.value.DuplicateResultBlockId? {
        return Some(ResultRejected(id, refused.value));
      }
      assert Used(before, fresh_);
      AheadShrinks(ids, UsedIds(before), tried, ahead);
    }
  }

  function UnboundCalls(entries: seq<Entry>, targets: set<string>): (r: seq<Entry>)
    requires DistinctDeclarations(entries)
    ensures forall e :: e in r <==> e in entries && e.call.input.toolName !in targets
    ensures DistinctDeclarations(r)
  {
    if entries == [] then []
    else
      var past, last := UnboundCalls(entries[..|entries| - 1], targets), entries[|entries| - 1];
      assert forall i :: 0 <= i < |past| ==> past[i] in past && past[i] in entries[..|entries| - 1];
      if last.call.input.toolName in targets then past else past + [last]
  }

  /** The calls that still name no bound tool are those from `k` on. */
  ghost predicate LeftFrom(v: map<BlockId, Entry>, targets: set<string>, rejected: seq<Entry>, k: nat)
    requires k <= |rejected|
  {
    && (forall i :: k <= i < |rejected| ==> Unbound(v, targets, rejected[i].Id()))
    && (forall id :: Unbound(v, targets, id) ==> exists i :: k <= i < |rejected| && rejected[i].Id() == id)
  }

  lemma SuffixMember(entries: seq<Entry>, n: nat, e: Entry)
    requires n <= |entries|
    ensures e in entries[n..] <==> exists i :: n <= i < |entries| && entries[i] == e
  {
    if i :| n <= i < |entries| && entries[i] == e {
      assert entries[n..][i - n] == e;
    }
  }

  /** Entries past the prefix are the open ones. */
  lemma OpenSuffix(b: Batch, e: Entry)
    requires Sound(b)
    ensures e in b.entries[b.completed..] <==> e.Id() in View(b.entries) && View(b.entries)[e.Id()] == e && e.result.None?
  {
    SuffixMember(b.entries, b.completed, e);
    if i :| 0 <= i < |b.entries| && b.entries[i].Id() == e.Id() {
      assert Placed(b, i) && View(b.entries)[b.entries[i].Id()] == b.entries[i];
    }
  }

  lemma OpenIsListed(b: Batch, targets: set<string>, e: Entry)
    requires Sound(b) && DistinctDeclarations(b.entries[b.completed..])
    requires e.Id() in View(b.entries) && View(b.entries)[e.Id()] == e && Unbound(View(b.entries), targets, e.Id())
    ensures e in UnboundCalls(b.entries[b.completed..], targets)
  {
    OpenSuffix(b, e);
  }

  lemma UnboundIsListed(b: Batch, targets: set<string>, id: BlockId)
    requires Sound(b) && DistinctDeclarations(b.entries[b.completed..]) && Unbound(View(b.entries), targets, id)
    ensures var rejected := UnboundCalls(b.entries[b.completed..], targets);
            exists i :: 0 <= i < |rejected| && rejected[i].Id() == id
  {
    KeyIsId(b, id);
    OpenIsListed(b, targets, View(b.entries)[id]);
    MemberHasIndex(UnboundCalls(b.entries[b.completed..], targets), View(b.entries)[id]);
  }

  lemma MemberHasIndex(entries: seq<Entry>, e: Entry)
    requires e in entries
    ensures exists i :: 0 <= i < |entries| && entries[i].Id() == e.Id()
  {
    var i :| 0 <= i < |entries| && entries[i] == e;
    assert entries[i].Id() == e.Id();
  }

  lemma ListedIsUnbound(b: Batch, targets: set<string>, e: Entry)
    requires Sound(b) && DistinctDeclarations(b.entries[b.completed..])
    requires e in UnboundCalls(b.entries[b.completed..], targets)
    ensures Unbound(View(b.entries), targets, e.Id())
  {
    OpenSuffix(b, e);
  }

  lemma UnboundCallsLeft(b: Batch, targets: set<string>)
    requires Sound(b)
    ensures DistinctDeclarations(b.entries[b.completed..])
    ensures LeftFrom(View(b.entries), targets, UnboundCalls(b.entries[b.completed..], targets), 0)
  {
    var rejected := UnboundCalls(b.entries[b.completed..], targets);
    forall i | 0 <= i < |rejected| ensures Unbound(View(b.entries), targets, rejected[i].Id()) {
      ListedIsUnbound(b, targets, rejected[i]);
    }
    forall id | Unbound(View(b.entries), targets, id) ensures exists i :: 0 <= i < |rejected| && rejected[i].Id() == id {
      UnboundIsListed(b, targets, id);
    }
  }

  lemma LeftAfter(v: map<BlockId, Entry>, w: map<BlockId, Entry>, targets: set<string>, rejected: seq<Entry>, k: nat,
                  r: BlockId, payload: ToolResult)
    requires k < |rejected| && DistinctDeclarations(rejected) && LeftFrom(v, targets, rejected, k)
    requires rejected[k].Id() in v && w == v[rejected[k].Id() := Settled(v[rejected[k].Id()], r, payload)]
    ensures LeftFrom(w, targets, rejected, k + 1)
  {
    forall id | Unbound(w, targets, id) ensures exists i :: k + 1 <= i < |rejected| && rejected[i].Id() == id {
      assert Unbound(v, targets, id);
      var i :| k <= i < |rejected| && rejected[i].Id() == id;
    }
  }

  lemma TookLeaves(before: Batch, after: Batch, targets: set<string>, rejected: seq<Entry>, k: nat, payload: ToolResult)
    requires Sound(before) && Sound(after) && k < |rejected| && DistinctDeclarations(rejected)
    requires LeftFrom(View(before.entries), targets, rejected, k) && Took(before, after, rejected[k].Id(), payload)
    ensures LeftFrom(View(after.entries), targets, rejected, k + 1)
  {
    var r :| RecordedAs(before, after, rejected[k].Id(), r, payload);
    LeftAfter(View(before.entries), View(after.entries), targets, rejected, k, r, payload);
  }

  /** A rejection for each open call that names no bound tool. */
  function Rejections(v: Entries, targets: set<string>, rejection: string -> Json): Answers {
    map id | id in v && Unbound(v, targets, id) :: Rejection(id, rejection(v[id].call.input.toolName))
  }

  /** The first `k` calls of the list have their rejections. */
  predicate RejectedTo(rejected: seq<Entry>, rejection: string -> Json, k: nat, answers: Answers)
    requires k <= |rejected|
  {
    && (forall i :: 0 <= i < k ==>
          rejected[i].Id() in answers
          && answers[rejected[i].Id()] == Rejection(rejected[i].Id(), rejection(rejected[i].call.input.toolName)))
    && forall id :: id in answers ==> exists i :: 0 <= i < k && rejected[i].Id() == id
  }

  /** The listed entries are the ones the batch holds for their declarations. */
  predicate InView(v: map<BlockId, Entry>, rejected: seq<Entry>) {
    forall i :: 0 <= i < |rejected| ==> rejected[i].Id() in v && v[rejected[i].Id()] == rejected[i]
  }

  lemma {:induction false} EntriesInView(b: Batch, targets: set<string>, rejected: seq<Entry>)
    requires Sound(b) && DistinctDeclarations(b.entries[b.completed..])
    requires rejected == UnboundCalls(b.entries[b.completed..], targets)
    ensures InView(View(b.entries), rejected)
  {
    forall i | 0 <= i < |rejected| ensures rejected[i].Id() in View(b.entries) && View(b.entries)[rejected[i].Id()] == rejected[i] {
      assert rejected[i] in rejected;
      OpenSuffix(b, rejected[i]);
    }
  }

  lemma {:induction false} RejectedOne(v: map<BlockId, Entry>, targets: set<string>, rejected: seq<Entry>,
                                       rejection: string -> Json, answers: Answers, id: BlockId)
    requires InView(v, rejected) && LeftFrom(v, targets, rejected, 0)
             && RejectedTo(rejected, rejection, |rejected|, answers)
    ensures id in answers <==> Unbound(v, targets, id)
    ensures id in answers ==> answers[id] == Rejection(id, rejection(v[id].call.input.toolName))
  {
  }

  lemma {:induction false} RejectedAll(v: map<BlockId, Entry>, targets: set<string>, rejected: seq<Entry>,
                                       rejection: string -> Json, answers: Answers)
    requires InView(v, rejected) && LeftFrom(v, targets, rejected, 0)
             && RejectedTo(rejected, rejection, |rejected|, answers)
    ensures answers == Rejections(v, targets, rejection)
  {
    forall id ensures id in answers <==> id in Rejections(v, targets, rejection) {
      RejectedOne(v, targets, rejected, rejection, answers, id);
    }
    forall id | id in answers ensures answers[id] == Rejections(v, targets, rejection)[id] {
      RejectedOne(v, targets, rejected, rejection, answers, id);
    }
  }

  /** Part of the way through the rejections: the first `k` of them are in. */
  ghost predicate Rejecting(before: Batch, here: Batch, targets: set<string>, rejected: seq<Entry>,
                            rejection: string -> Json,
                            k: nat, answers: Answers)
  {
    && k <= |rejected| && DistinctDeclarations(rejected) && Sound(before) && Sound(here)
    && Dispatched(before, here, answers) && RejectedTo(rejected, rejection, k, answers)
    && Transition(Capture(before), Capture(here), Before) && LeftFrom(View(here.entries), targets, rejected, k)
  }

  lemma {:induction false} RejectedToMore(rejected: seq<Entry>, rejection: string -> Json, k: nat, answers: Answers)
    requires k < |rejected| && DistinctDeclarations(rejected) && RejectedTo(rejected, rejection, k, answers)
    ensures var id := rejected[k].Id();
            RejectedTo(rejected, rejection, k + 1, answers[id := Rejection(id, rejection(rejected[k].call.input.toolName))])
  {
  }

  lemma {:induction false} RejectingMore(before: Batch, here: Batch, after: Batch, targets: set<string>,
                                         rejected: seq<Entry>,
                                         rejection: string -> Json, k: nat, answers: Answers)
    requires Rejecting(before, here, targets, rejected, rejection, k, answers) && k < |rejected| && Sound(after)
    requires var id := rejected[k].Id();
             IsPending(here, id) && Took(here, after, id, Rejection(id, rejection(rejected[k].call.input.toolName)))
    ensures var id := rejected[k].Id();
            Rejecting(before, after, targets, rejected, rejection, k + 1,
                      answers[id := Rejection(id, rejection(rejected[k].call.input.toolName))])
  {
    var id := rejected[k].Id();
    var payload := Rejection(id, rejection(rejected[k].call.input.toolName));
    TookIsTransition(here, after, id, payload);
    TransitionTransitive(Capture(before), Capture(here), Capture(after), Before);
    TookLeaves(here, after, targets, rejected, k, payload);
    DispatchedMore(before, here, after, answers, id, payload);
    RejectedToMore(rejected, rejection, k, answers);
  }

  lemma {:induction false} NextRejected(before: Batch, here: Batch, targets: set<string>, rejected: seq<Entry>,
                                        rejection: string -> Json, k: nat, answers: Answers)
    requires Rejecting(before, here, targets, rejected, rejection, k, answers) && k < |rejected|
    ensures IsPending(here, rejected[k].Id())
  {
    assert Unbound(View(here.entries), targets, rejected[k].Id());
    PendingIsOpen(here, rejected[k].Id());
  }

  lemma {:induction false} RejectingNone(b: Batch, targets: set<string>, rejected: seq<Entry>, rejection: string -> Json)
    requires Sound(b) && DistinctDeclarations(rejected) && LeftFrom(View(b.entries), targets, rejected, 0)
    ensures Rejecting(b, b, targets, rejected, rejection, 0, map[])
  {
    TransitionReflexive(Capture(b), Before);
    NothingDispatched(b);
  }

  /** A call without a bound tool has a rejection of its own with the host's content; any other entry is what it was. */
  predicate EntryRejected(was: Entry, now: Entry, id: BlockId, targets: set<string>, rejection: string -> Json) {
    if was.result.None? && was.call.input.toolName !in targets then
      && now.result.Some? && now.call.input == was.call.input
      && now.result.value.payload.callBlockId == id && now.result.value.payload.status.Rejected?
      && now.result.value.payload.output.content == rejection(was.call.input.toolName)
      && now.result.value.payload.notes == was.call.resultNotes
    else now == was
  }

  ghost predicate EachRejected(before: Batch, after: Batch, targets: set<string>, rejection: string -> Json)
    requires DistinctDeclarations(before.entries) && DistinctDeclarations(after.entries)
  {
    && View(before.entries).Keys == View(after.entries).Keys
    && forall id :: id in View(before.entries) ==>
         EntryRejected(View(before.entries)[id], View(after.entries)[id], id, targets, rejection)
  }

  lemma {:induction false} FateRejected(v: Entries, now: Entry, id: BlockId, targets: set<string>, rejection: string -> Json)
    requires id in v && v[id].Id() == id && Fate(v[id], now, Rejections(v, targets, rejection))
    ensures EntryRejected(v[id], now, id, targets, rejection)
  {
    NoNotes(v[id].call.resultNotes);
  }

  lemma {:induction false} RejectionsTell(before: Batch, after: Batch, targets: set<string>, rejection: string -> Json)
    requires Sound(before) && Sound(after)
    requires Dispatched(before, after, Rejections(View(before.entries), targets, rejection))
    ensures EachRejected(before, after, targets, rejection)
  {
    forall id | id in View(before.entries)
      ensures EntryRejected(View(before.entries)[id], View(after.entries)[id], id, targets, rejection)
    {
      FateRejected(View(before.entries), View(after.entries)[id], id, targets, rejection);
    }
  }

  lemma NoNotes(notes: seq<string>)
    ensures notes + [] == notes
  {
  }

  /** Calls whose tool is not bound never run. */
  method RejectUnbound(batch: ToolBatch, ids: IdSource, targets: set<string>, rejection: string -> Json)
    returns (error: Option<ProcessingError>)
    requires ids.Valid() && Sound(batch.Current()) && ids as object != batch
    modifies batch, ids
    ensures error == None && Sound(batch.Current()) && AllBound(batch.Current(), targets)
    ensures Dispatched(old(batch.Current()), batch.Current(), Rejections(View(old(batch.entries)), targets, rejection))
    ensures EachRejected(old(batch.Current()), batch.Current(), targets, rejection)
    ensures Transition(Capture(old(batch.Current())), Capture(batch.Current()), Before)
    ensures Members(batch.entries) == Members(old(batch.entries)) && ids.next >= old(ids.next)
  {
    ghost var before := batch.Current();
    UnboundCallsLeft(before, targets);
    var rejected, k := UnboundCalls(batch.entries[batch.completed..], targets), 0;
    RejectingNone(before, targets, rejected, rejection);
    ghost var answers: Answers := map[];
    while k < |rejected|
      invariant 0 <= k <= |rejected| && ids.next >= old(ids.next)
      invariant Rejecting(before, batch.Current(), targets, rejected, rejection, k, answers)
    {
      var id := rejected[k].Id();
      var payload := Rejection(id, rejection(rejected[k].call.input.toolName));
      ghost var here := batch.Current();
      NextRejected(before, here, targets, rejected, rejection, k, answers);
      error := Resolve(batch, ids, id, payload);
      RejectingMore(before, here, batch.Current(), targets, rejected, rejection, k, answers);
      answers := answers[id := payload];
      k := k + 1;
    }
    error := None;
    EntriesInView(before, targets, rejected);
    RejectedAll(View(before.entries), targets, rejected, rejection, answers);
    RejectionsTell(before, batch.Current(), targets, rejection);
    SameCalls(before, batch.Current(), Before);
    NoneLeft(batch.Current(), targets, rejected);
  }

  lemma NoneLeft(b: Batch, targets: set<string>, rejected: seq<Entry>)
    requires Sound(b) && LeftFrom(View(b.entries), targets, rejected, |rejected|)
    ensures AllBound(b, targets)
  {
    forall i | b.completed <= i < |b.entries| ensures b.entries[i].call.input.toolName in targets {
      assert Placed(b, i) && View(b.entries)[b.entries[i].Id()] == b.entries[i];
      assert !Unbound(View(b.entries), targets, b.entries[i].Id());
    }
  }

  /** Every pending call names a bound tool, so its target can be looked up. */
  predicate AllBound(b: Batch, targets: set<string>) {
    forall i :: b.completed <= i < |b.entries| ==> b.entries[i].call.input.toolName in targets
  }

  /** An open call that names no bound tool. */
  predicate Unbound(v: map<BlockId, Entry>, targets: set<string>, id: BlockId) {
    id in v && v[id].result.None? && v[id].call.input.toolName !in targets
  }

  function Rejection(id: BlockId, content: Json): ToolResult {
    ToolResult(id, Rejected, PlainOutput(content, None), [], [])
  }

  lemma SettledMayBecome(e: Entry, r: BlockId, payload: ToolResult)
    requires e.result.None?
    ensures EntryMayBecome(SnapshotOf(e), SnapshotOf(Settled(e, r, payload)), Before)
  {
  }

  /** Snapshots of the same calls, with entry-wise allowed changes, are a transition. */
  lemma TransitionByEntries(before: Batch, after: Batch, phase: Phase)
    requires DistinctDeclarations(before.entries) && DistinctDeclarations(after.entries)
    requires EntriesMayBecome(View(before.entries), View(after.entries), phase) && before.completed <= after.completed
    ensures Transition(Capture(before), Capture(after), phase)
  {
    var a, b := Capture(before), Capture(after);
    assert |a.entries| == |a.entries.Keys| && |b.entries| == |b.entries.Keys|;
  }

  predicate EntriesMayBecome(v: map<BlockId, Entry>, w: map<BlockId, Entry>, phase: Phase) {
    v.Keys == w.Keys && forall k :: k in v ==> EntryMayBecome(SnapshotOf(v[k]), SnapshotOf(w[k]), phase)
  }

  lemma UpdateMayBecome(v: map<BlockId, Entry>, w: map<BlockId, Entry>, id: BlockId, r: BlockId, payload: ToolResult)
    requires id in v && v[id].result.None? && w == v[id := Settled(v[id], r, payload)]
    ensures EntriesMayBecome(v, w, Before)
  {
    SettledMayBecome(v[id], r, payload);
  }

  /** Recording a result is something the before phase allows. */
  lemma TookIsTransition(before: Batch, after: Batch, id: BlockId, payload: ToolResult)
    requires Sound(before) && Sound(after) && IsPending(before, id) && Took(before, after, id, payload)
    ensures Transition(Capture(before), Capture(after), Before)
  {
    PendingIsOpen(before, id);
    var r :| RecordedAs(before, after, id, r, payload);
    UpdateMayBecome(View(before.entries), View(after.entries), id, r, payload);
    TransitionByEntries(before, after, Before);
  }

  // -- dispatch -------------------------------------------------------------------------------

  /**
   What the tasks do while the batch is collected: a task is polled, a task returns, or every
   task waits and control is looked at again. Results may answer any call.
   */
  datatype Event = Woken(id: BlockId) | Returned(id: BlockId, payload: ToolResult) | AllWaiting

  function Unknown(id: BlockId): ToolResult {
    ToolResult(id, Unobserved,
               PlainOutput(Obj(map["error" := Str("tool was started but no acceptable result was observed before the batch stopped")]),
                           Some("batch_stopped")), [], [])
  }

  /** What became of an entry, given the results recorded by the dispatch. */
  ghost predicate Fate(was: Entry, now: Entry, answers: Answers) {
    if was.result.None? && was.Id() in answers then exists r :: now == Settled(was, r, answers[was.Id()])
    else now == was
  }

  type Entries = map<BlockId, Entry>
  type Answers = map<BlockId, ToolResult>

  // -- what the tasks did -----------------------------------------------------------------------

  /** The pending calls whose task some event polls. */
  function Polled(pending: set<BlockId>, events: seq<Event>): set<BlockId> {
    if events == [] then {}
    else
      var past, last := Polled(pending, events[..|events| - 1]), events[|events| - 1];
      if !last.AllWaiting? && last.id in pending then past + {last.id} else past
  }

  /** The event is the return of a pending call's task with a result of that call. */
  predicate OwnReturn(pending: set<BlockId>, e: Event) {
    e.Returned? && e.id in pending && e.payload.callBlockId == e.id
  }

  /** Each pending call's first result of its own. */
  function Answered(pending: set<BlockId>, events: seq<Event>): Answers {
    if events == [] then map[]
    else
      var past, last := Answered(pending, events[..|events| - 1]), events[|events| - 1];
      if OwnReturn(pending, last) && last.id !in past then past[last.id := last.payload] else past
  }

  /** An answer is what the call's task returned, and no earlier event answered the call. */
  lemma {:induction false} AnsweredFirst(pending: set<BlockId>, events: seq<Event>, id: BlockId)
    ensures id in Answered(pending, events) <==>
            exists k :: 0 <= k < |events| && OwnReturn(pending, events[k]) && events[k].id == id
    ensures id in Answered(pending, events) ==>
              exists k :: 0 <= k < |events| && OwnReturn(pending, events[k])
                          && events[k] == Returned(id, Answered(pending, events)[id])
                          && forall j :: 0 <= j < k ==> !(OwnReturn(pending, events[j]) && events[j].id == id)
    decreases |events|
  {
    if events != [] {
      var n := |events| - 1;
      var past := events[..n];
      AnsweredFirst(pending, past, id);
      assert forall k :: 0 <= k < n ==> past[k] == events[k];
      if id in Answered(pending, past) {
        var k :| 0 <= k < n && OwnReturn(pending, past[k]) && past[k] == Returned(id, Answered(pending, past)[id])
                 && forall j :: 0 <= j < k ==> !(OwnReturn(pending, past[j]) && past[j].id == id);
        assert OwnReturn(pending, events[k]) && events[k].id == id;
      } else if OwnReturn(pending, events[n]) && events[n].id == id {
        assert events[n] == Returned(id, Answered(pending, events)[id]);
      }
    }
  }

  /** The first `n` events of the schedule, and nothing else, made these calls started and accepted. */
  predicate Observed(schedule: seq<Event>, n: nat, pending: set<BlockId>, started: set<BlockId>, accepted: Answers) {
    && n <= |schedule|
    && started == Polled(pending, schedule[..n]) && accepted == Answered(pending, schedule[..n])
  }

  lemma {:induction false} ObservedMore(schedule: seq<Event>, n: nat, pending: set<BlockId>, started: set<BlockId>,
                                        accepted: Answers)
    requires Observed(schedule, n, pending, started, accepted) && n < |schedule|
    ensures var e := schedule[n];
            Observed(schedule, n + 1, pending,
                     if !e.AllWaiting? && e.id in pending then started + {e.id} else started,
                     if OwnReturn(pending, e) && e.id !in accepted then accepted[e.id := e.payload] else accepted)
  {
    assert schedule[..n + 1][..n] == schedule[..n] && schedule[..n + 1][n] == schedule[n];
  }

  /** The event brings a result of another call for one still unanswered. */
  predicate Strays(schedule: seq<Event>, k: nat, pending: set<BlockId>)
    requires k < |schedule|
  {
    var e := schedule[k];
    e.Returned? && e.id in pending && e.payload.callBlockId != e.id && e.id !in Answered(pending, schedule[..k])
  }

  predicate NoneStrays(schedule: seq<Event>, n: nat, pending: set<BlockId>)
    requires n <= |schedule|
  {
    forall k: nat :: k < n ==> !Strays(schedule, k, pending)
  }

  /**
   Why the collection ended after `n` events: everything is answered; or control was seen to stop,
   or the events ran out, with something unanswered; or the last event, and none before it, answered
   another call.
   */
  predicate EndedBy(schedule: seq<Event>, n: nat, pending: set<BlockId>, accepted: Answers, stopped: bool,
                    error: Option<ProcessingError>)
    requires n <= |schedule|
  {
    match error
    case None => NoneStrays(schedule, n, pending) && pending <= accepted.Keys && (pending != {} ==> !stopped)
    case Some(Stopped) => NoneStrays(schedule, n, pending) && !(pending <= accepted.Keys) && (stopped || n == |schedule|)
    case Some(ResultRejected(id, e)) =>
      && n > 0 && NoneStrays(schedule, n - 1, pending) && Strays(schedule, n - 1, pending) && schedule[n - 1].id == id
      && e == MismatchedCall(id, schedule[n - 1].payload.callBlockId) && !stopped
    case _ => false
  }

  /** Every entry has met its fate, and answers are for calls that were pending. */
  ghost predicate FatesMet(v: Entries, w: Entries, answers: Answers) {
    && v.Keys == w.Keys
    && (forall id :: id in v ==> v[id].Id() == id && Fate(v[id], w[id], answers))
    && (forall id :: id in answers ==> id in v && v[id].result.None?)
  }

  ghost predicate Dispatched(before: Batch, after: Batch, answers: Answers)
    requires DistinctDeclarations(before.entries) && DistinctDeclarations(after.entries)
  {
    |before.entries| == |after.entries| && FatesMet(View(before.entries), View(after.entries), answers)
  }

  lemma NothingDispatched(b: Batch)
    requires Sound(b)
    ensures Dispatched(b, b, map[])
  {
  }

  lemma FatesMore(v: Entries, x: Entries, answers: Answers, id: BlockId, r: BlockId, payload: ToolResult)
    requires FatesMet(v, x, answers) && id in x && x[id].result.None?
    ensures id !in answers && FatesMet(v, x[id := Settled(x[id], r, payload)], answers[id := payload])
  {
    var w := x[id := Settled(x[id], r, payload)];
    assert Fate(v[id], x[id], answers);
    forall k | k in v ensures Fate(v[k], w[k], answers[id := payload]) {
      assert Fate(v[k], x[k], answers);
    }
  }

  lemma DispatchedMore(before: Batch, here: Batch, after: Batch, answers: Answers, id: BlockId, payload: ToolResult)
    requires Sound(before) && Sound(here) && Sound(after)
    requires Dispatched(before, here, answers) && IsPending(here, id) && Took(here, after, id, payload)
    ensures Dispatched(before, after, answers[id := payload]) && id !in answers
  {
    PendingIsOpen(here, id);
    var r :| RecordedAs(here, after, id, r, payload);
    FatesMore(View(before.entries), View(here.entries), answers, id, r, payload);
  }

  lemma {:induction false} PendingAfter(here: Batch, after: Batch, id: BlockId, payload: ToolResult)
    requires Sound(here) && Sound(after) && IsPending(here, id) && Took(here, after, id, payload)
    ensures PendingIds(after) == PendingIds(here) - {id}
  {
    var r :| RecordedAs(here, after, id, r, payload);
    forall k ensures k in PendingIds(after) <==> k in PendingIds(here) && k != id {
      PendingIsOpen(after, k);
      PendingIsOpen(here, k);
    }
  }

  lemma KeyIsId(b: Batch, id: BlockId)
    requires DistinctDeclarations(b.entries) && id in View(b.entries)
    ensures View(b.entries)[id].Id() == id
  {
  }

  /** The stop of a batch, call by call: what was observed, what is unknown, what never ran. */
  ghost predicate Settlement(before: Batch, after: Batch, started: set<BlockId>, accepted: map<BlockId, ToolResult>)
    requires DistinctDeclarations(before.entries) && DistinctDeclarations(after.entries)
  {
    OwnResults(started, accepted) && started <= PendingIds(before) && Dispatched(before, after, Final(started, accepted))
  }

  /**
   What a stop leaves of an entry: an accepted result behind the notes taken before it; an
   unobserved outcome of its own for a call that was started without one; else what it was.
   */
  predicate EntrySettled(was: Entry, now: Entry, id: BlockId, started: set<BlockId>, accepted: Answers) {
    if was.result.None? && id in accepted then
      && now.result.Some? && now.call.input == was.call.input
      && now.result.value.payload == accepted[id].(notes := was.call.resultNotes + accepted[id].notes)
    else if was.result.None? && id in started then
      && now.result.Some? && now.call.input == was.call.input && now.result.value.payload.callBlockId == id
      && now.result.value.payload.status.Unobserved? && now.result.value.payload.media == []
      && now.result.value.payload.notes == was.call.resultNotes
      && now.result.value.payload.output.reason == Some("batch_stopped")
      && now.result.value.payload.output.content == Obj(map["error" := Str(
           "tool was started but no acceptable result was observed before the batch stopped")])
    else now == was
  }

  ghost predicate EachSettled(before: Batch, after: Batch, started: set<BlockId>, accepted: Answers)
    requires DistinctDeclarations(before.entries) && DistinctDeclarations(after.entries)
  {
    && View(before.entries).Keys == View(after.entries).Keys
    && forall id :: id in View(before.entries) ==>
         EntrySettled(View(before.entries)[id], View(after.entries)[id], id, started, accepted)
  }

  lemma {:induction false} FateSettled(was: Entry, now: Entry, id: BlockId, started: set<BlockId>, accepted: Answers)
    requires was.Id() == id && Fate(was, now, Final(started, accepted)) && OwnResults(started, accepted)
    ensures EntrySettled(was, now, id, started, accepted)
  {
    NoNotes(was.call.resultNotes);
  }

  lemma {:induction false} SettlementTells(before: Batch, after: Batch, started: set<BlockId>, accepted: Answers)
    requires Sound(before) && Sound(after) && Settlement(before, after, started, accepted)
    ensures EachSettled(before, after, started, accepted)
  {
    forall id | id in View(before.entries)
      ensures EntrySettled(View(before.entries)[id], View(after.entries)[id], id, started, accepted)
    {
      FateSettled(View(before.entries)[id], View(after.entries)[id], id, started, accepted);
    }
  }

  predicate OwnResults(started: set<BlockId>, accepted: Answers) {
    forall id :: id in accepted ==> id in started && accepted[id].callBlockId == id
  }

  /** The records of a collection agree with the batch. */
  ghost predicate Collecting(before: Batch, here: Batch, tasks: set<BlockId>, started: set<BlockId>, accepted: Answers) {
    && Sound(before) && Sound(here) && Dispatched(before, here, accepted)
    && tasks == PendingIds(here) && started <= PendingIds(before) && OwnResults(started, accepted)
  }

  lemma CollectingMore(before: Batch, here: Batch, after: Batch, tasks: set<BlockId>, started: set<BlockId>,
                       accepted: Answers, id: BlockId, payload: ToolResult)
    requires Collecting(before, here, tasks, started, accepted) && Sound(after)
    requires id in tasks && id in started && payload.callBlockId == id && Took(here, after, id, payload)
    ensures Collecting(before, after, tasks - {id}, started, accepted[id := payload])
  {
    DispatchedMore(before, here, after, accepted, id, payload);
    PendingAfter(here, after, id, payload);
    OwnResultsMore(started, accepted, id, payload);
  }

  lemma OwnResultsMore(started: set<BlockId>, accepted: Answers, id: BlockId, payload: ToolResult)
    requires OwnResults(started, accepted) && id in started && payload.callBlockId == id
    ensures OwnResults(started, accepted[id := payload])
  {
  }

  /** The pending calls, as tasks. */
  lemma TasksAtFirst(b: Batch, open: seq<Entry>, tasks: set<BlockId>)
    requires Sound(b) && open == b.entries[b.completed..]
    requires tasks == set i | 0 <= i < |open| :: open[i].Id()
    ensures Collecting(b, b, tasks, {}, map[])
  {
    NothingDispatched(b);
    SuffixIds(b.entries, b.completed);
  }

  lemma SuffixIds(entries: seq<Entry>, n: nat)
    requires n <= |entries|
    ensures (set i | 0 <= i < |entries[n..]| :: entries[n..][i].Id()) == set i | n <= i < |entries| :: entries[i].Id()
  {
    var open := entries[n..];
    forall i | n <= i < |entries| ensures entries[i].Id() in set j | 0 <= j < |open| :: open[j].Id() {
      assert open[i - n] == entries[i];
    }
  }

  function FinalAnswer(accepted: Answers, id: BlockId): ToolResult {
    if id in accepted then accepted[id] else Unknown(id)
  }

  function Final(started: set<BlockId>, accepted: Answers): Answers {
    map id | id in started :: FinalAnswer(accepted, id)
  }

  /** Part of the way through settling: all started calls but `open` are answered. */
  predicate Answering(started: set<BlockId>, accepted: Answers, open: set<BlockId>, answers: Answers) {
    && open <= started && accepted.Keys <= answers.Keys <= started && started - open <= answers.Keys
    && forall id :: id in answers ==> answers[id] == FinalAnswer(accepted, id)
  }

  lemma {:induction false} AnsweringDone(started: set<BlockId>, accepted: Answers, answers: Answers)
    requires Answering(started, accepted, {}, answers)
    ensures answers == Final(started, accepted)
  {
    assert started <= answers.Keys;
  }

  lemma {:induction false} AnsweringMore(started: set<BlockId>, accepted: Answers, open: set<BlockId>, answers: Answers,
                                         id: BlockId)
    requires Answering(started, accepted, open, answers) && id in open
    ensures id in answers ==> Answering(started, accepted, open - {id}, answers)
    ensures id !in answers ==> Answering(started, accepted, open - {id}, answers[id := Unknown(id)])
  {
    var more := answers[id := Unknown(id)];
    assert more.Keys == answers.Keys + {id};
  }

  /** Records the result of a task that returned, unless it answers another call. */
  method Record(batch: ToolBatch, ids: IdSource, id: BlockId, payload: ToolResult, ghost before: Batch,
                ghost tasks: set<BlockId>, ghost started: set<BlockId>, ghost accepted: Answers)
    returns (error: Option<ProcessingError>)
    requires ids as object != batch && ids.Valid() && id in tasks && id in started
    requires Collecting(before, batch.Current(), tasks, started, accepted)
    modifies batch, ids
    ensures ids.next >= old(ids.next)
    ensures error.None? <==> payload.callBlockId == id
    ensures error.Some? ==> error.value == ResultRejected(id, MismatchedCall(id, payload.callBlockId))
    ensures error.Some? ==> Collecting(before, batch.Current(), tasks, started, accepted)
    ensures error.None? ==> Collecting(before, batch.Current(), tasks - {id}, started, accepted[id := payload])
  {
    ghost var here := batch.Current();
    error := Resolve(batch, ids, id, payload);
    if error.None? {
      CollectingMore(before, here, batch.Current(), tasks, started, accepted, id, payload);
    }
  }

  /** Settles what was started and not accepted. It never fails. */
  method Settle(batch: ToolBatch, ids: IdSource, started: set<BlockId>, ghost before: Batch,
                ghost tasks: set<BlockId>, ghost accepted: Answers)
    requires ids as object != batch && ids.Valid()
    requires Collecting(before, batch.Current(), tasks, started, accepted)
    modifies batch, ids
    ensures Sound(batch.Current()) && ids.next >= old(ids.next)
    ensures Settlement(before, batch.Current(), started, accepted)
    ensures EachSettled(before, batch.Current(), started, accepted)
  {
    var open := started;
    ghost var answers := accepted;
    while open != {}
      invariant Sound(batch.Current()) && Dispatched(before, batch.Current(), answers) && ids.next >= old(ids.next)
      invariant Answering(started, accepted, open, answers)
      decreases open
    {
      var id :| id in open;
      ghost var here := batch.Current();
      var pending := FindPending(batch, id);
      OpenOrAnswered(before, here, answers, id);
      if pending.Some? {
        var error := Resolve(batch, ids, id, Unknown(id));
        assert error.None?;
        DispatchedMore(before, here, batch.Current(), answers, id, Unknown(id));
        AnsweringMore(started, accepted, open, answers, id);
        answers := answers[id := Unknown(id)];
      } else {
        AnsweringMore(started, accepted, open, answers, id);
      }
      open := open - {id};
    }
    AnsweringDone(started, accepted, answers);
    SettlementTells(before, batch.Current(), started, accepted);
  }

  lemma StartedWasPending(before: Batch, here: Batch, answers: Answers, id: BlockId)
    requires Sound(before) && Sound(here) && Dispatched(before, here, answers) && IsPending(here, id)
    ensures IsPending(before, id)
  {
    PendingIsOpen(here, id);
    PendingIsOpen(before, id);
    assert Fate(View(before.entries)[id], View(here.entries)[id], answers);
  }

  lemma OpenOrAnswered(before: Batch, here: Batch, answers: Answers, id: BlockId)
    requires Sound(before) && Sound(here) && Dispatched(before, here, answers) && IsPending(before, id)
    ensures IsPending(here, id) <==> id !in answers
  {
    PendingIsOpen(here, id);
    PendingIsOpen(before, id);
    KeyIsId(before, id);
    assert Fate(View(before.entries)[id], View(here.entries)[id], answers);
  }

  lemma AllAnswered(before: Batch, after: Batch, started: set<BlockId>, accepted: Answers)
    requires Collecting(before, after, {}, started, accepted)
    ensures accepted.Keys == started == PendingIds(before) && Final(started, accepted) == accepted
  {
    forall id | id in PendingIds(before) ensures id in accepted.Keys {
      OpenOrAnswered(before, after, accepted, id);
      assert id !in PendingIds(after);
    }
    OnlyOwnResults(started, accepted, PendingIds(before));
  }

  lemma OnlyOwnResults(started: set<BlockId>, accepted: Answers, pending: set<BlockId>)
    requires OwnResults(started, accepted) && started <= pending <= accepted.Keys
    ensures accepted.Keys == started == pending && Final(started, accepted) == accepted
  {
    assert accepted.Keys <= started;
  }

  lemma NothingPending(b: Batch)
    requires Sound(b) && PendingIds(b) == {}
    ensures b.completed == |b.entries|
  {
    if b.completed < |b.entries| {
      assert IsPending(b, b.entries[b.completed].Id());
    }
  }

  /** The first poll of a task looks at control before it records the start. */
  method Start(control: Control, started: set<BlockId>, id: BlockId)
    returns (error: Option<ProcessingError>, now: set<BlockId>)
    modifies control
    ensures now == (if error.None? then started + {id} else started)
    ensures error.Some? ==> error.value.Stopped? && control.HasStopped()
    ensures error.None? && control.HasStopped() ==> old(control.HasStopped())
  {
    now := started;
    if id !in started {
      var stopped := control.IsStopped();
      if stopped {
        return Some(Stopped), now;
      }
      now := started + {id};
    }
    error := None;
  }

  /** After `k` events: `running` are the pending calls not yet answered. */
  predicate Tally(schedule: seq<Event>, k: nat, pending: set<BlockId>, running: set<BlockId>, started: set<BlockId>,
                  accepted: Answers)
  {
    && running == pending - accepted.Keys && accepted.Keys <= pending && accepted.Keys <= started
    && Observed(schedule, k, pending, started, accepted)
  }

  /** A poll that brings no result of the task's own adds the task to those started. */
  lemma {:induction false} TallyPolled(schedule: seq<Event>, k: nat, pending: set<BlockId>, running: set<BlockId>,
                                       started: set<BlockId>, accepted: Answers)
    requires Tally(schedule, k, pending, running, started, accepted) && k < |schedule|
    requires !schedule[k].AllWaiting? && schedule[k].id in running && !OwnReturn(pending, schedule[k])
    ensures Tally(schedule, k + 1, pending, running, started + {schedule[k].id}, accepted)
  {
    ObservedMore(schedule, k, pending, started, accepted);
  }

  lemma {:induction false} TallyPassed(schedule: seq<Event>, k: nat, pending: set<BlockId>, running: set<BlockId>,
                                       started: set<BlockId>, accepted: Answers)
    requires Tally(schedule, k, pending, running, started, accepted) && k < |schedule|
    requires (schedule[k].AllWaiting? || schedule[k].id !in running) && NoneStrays(schedule, k, pending)
    ensures Tally(schedule, k + 1, pending, running, started, accepted) && NoneStrays(schedule, k + 1, pending)
  {
    ObservedMore(schedule, k, pending, started, accepted);
    if !schedule[k].AllWaiting? && schedule[k].id in pending {
      assert schedule[k].id in accepted.Keys;
      assert started + {schedule[k].id} == started;
    }
  }

  lemma {:induction false} TallyAccepted(schedule: seq<Event>, k: nat, pending: set<BlockId>, running: set<BlockId>,
                                         started: set<BlockId>, accepted: Answers)
    requires Tally(schedule, k, pending, running, started, accepted) && k < |schedule|
    requires OwnReturn(pending, schedule[k]) && schedule[k].id in running
    ensures var e := schedule[k];
            Tally(schedule, k + 1, pending, running - {e.id}, started + {e.id}, accepted[e.id := e.payload])
  {
    var e := schedule[k];
    ObservedMore(schedule, k, pending, started, accepted);
    assert accepted[e.id := e.payload].Keys == accepted.Keys + {e.id};
  }

  lemma {:induction false} TallyEnd(schedule: seq<Event>, k: nat, pending: set<BlockId>, running: set<BlockId>,
                                    started: set<BlockId>, accepted: Answers)
    requires Tally(schedule, k, pending, running, started, accepted)
    ensures running == {} <==> pending <= accepted.Keys
    ensures pending == {} ==> running == {}
  {
    if id :| id in pending && id !in accepted.Keys {
      assert id in running;
    }
  }

  lemma {:induction false} TallyFirst(schedule: seq<Event>, pending: set<BlockId>)
    ensures Tally(schedule, 0, pending, pending, {}, map[])
  {
    var none: Answers := map[];
    assert pending - none.Keys == pending;
  }

  lemma {:induction false} CollectingStart(before: Batch, here: Batch, running: set<BlockId>, started: set<BlockId>,
                                           accepted: Answers, id: BlockId)
    requires Collecting(before, here, running, started, accepted) && id in PendingIds(before)
    ensures Collecting(before, here, running, started + {id}, accepted)
  {
  }

  /** A running task is polled, and may return. */
  method Poll(batch: ToolBatch, ids: IdSource, control: Control, schedule: seq<Event>, k: nat, ghost before: Batch,
              ghost running: set<BlockId>, started: set<BlockId>, ghost accepted: Answers)
    returns (error: Option<ProcessingError>, now: set<BlockId>, returned: bool, ghost taken: nat)
    requires ids as object != batch && control as object != batch && control as object != ids && ids.Valid()
    requires k < |schedule| && !schedule[k].AllWaiting? && schedule[k].id in running
    requires Collecting(before, batch.Current(), running, started, accepted)
    requires Tally(schedule, k, PendingIds(before), running, started, accepted) && !control.HasStopped()
    requires NoneStrays(schedule, k, PendingIds(before))
    modifies batch, ids, control
    ensures ids.next >= old(ids.next) && k <= taken <= k + 1
    ensures error.None? ==> && taken == k + 1 && !control.HasStopped() && now == started + {schedule[k].id}
                            && (returned <==> schedule[k].Returned?) && NoneStrays(schedule, k + 1, PendingIds(before))
    ensures error.None? && returned ==>
              && OwnReturn(PendingIds(before), schedule[k])
              && Collecting(before, batch.Current(), running - {schedule[k].id}, now,
                            accepted[schedule[k].id := schedule[k].payload])
              && Tally(schedule, k + 1, PendingIds(before), running - {schedule[k].id}, now,
                       accepted[schedule[k].id := schedule[k].payload])
    ensures error.Some? || !returned ==>
              && Collecting(before, batch.Current(), running, now, accepted)
              && Tally(schedule, taken, PendingIds(before), running, now, accepted)
    ensures error.Some? ==> EndedBy(schedule, taken, PendingIds(before), accepted, control.HasStopped(), error)
  {
    var event := schedule[k];
    returned, taken := event.Returned?, k;
    error, now := Start(control, started, event.id);
    if error.Some? {
      return;
    }
    taken := k + 1;
    assert now == started + {event.id};
    CollectingStart(before, batch.Current(), running, started, accepted, event.id);
    if !OwnReturn(PendingIds(before), event) {
      TallyPolled(schedule, k, PendingIds(before), running, started, accepted);
    } else {
      TallyAccepted(schedule, k, PendingIds(before), running, started, accepted);
    }
    if returned {
      error := Record(batch, ids, event.id, event.payload, before, running, now, accepted);
    }
  }

  /** The collection loop, up to the end of the batch or the first reason to stop. */
  method Collect(batch: ToolBatch, ids: IdSource, control: Control, schedule: seq<Event>)
    returns (error: Option<ProcessingError>, started: set<BlockId>, accepted: Answers, ghost tasks: set<BlockId>, ghost taken: nat)
    requires ids as object != batch && control as object != batch && control as object != ids
    requires ids.Valid() && Sound(batch.Current())
    modifies batch, ids, control
    ensures Collecting(old(batch.Current()), batch.Current(), tasks, started, accepted)
    ensures Tally(schedule, taken, PendingIds(old(batch.Current())), tasks, started, accepted)
    ensures EndedBy(schedule, taken, PendingIds(old(batch.Current())), accepted, control.HasStopped(), error)
    ensures ids.next >= old(ids.next)
  {
    ghost var before, pending := batch.Current(), PendingIds(batch.Current());
    var open := batch.entries[batch.completed..];
    var running := set i | 0 <= i < |open| :: open[i].Id();
    TasksAtFirst(before, open, running);
    TallyFirst(schedule, pending);
    started, accepted := {}, map[];
    var k: nat, polling := 0, false;
    while true
      invariant k <= |schedule| && ids.next >= old(ids.next)
      invariant Collecting(before, batch.Current(), running, started, accepted)
      invariant Tally(schedule, k, pending, running, started, accepted) && NoneStrays(schedule, k, pending)
      invariant k > 0 && pending != {} ==> !control.HasStopped()
      invariant polling ==> k > 0 && running != {}
      decreases |schedule| - k
    {
      tasks, taken := running, k;
      TallyEnd(schedule, k, pending, running, started, accepted);
      if !polling {
        if running == {} {
          return None, started, accepted, tasks, taken;
        }
        var stopped := control.IsStopped();
        if stopped {
          return Some(Stopped), started, accepted, tasks, taken;
        }
      }
      if k == |schedule| {
        return Some(Stopped), started, accepted, tasks, taken;
      }
      var event := schedule[k];
      if event.AllWaiting? || event.id !in running {
        TallyPassed(schedule, k, pending, running, started, accepted);
        polling := polling && !event.AllWaiting?;
      } else {
        var returned;
        error, started, returned, taken := Poll(batch, ids, control, schedule, k, before, running, started, accepted);
        if error.Some? {
          return;
        }
        if returned {
          running, accepted := running - {event.id}, accepted[event.id := event.payload];
        }
        polling := !returned;
      }
      k := k + 1;
      assert Tally(schedule, k, pending, running, started, accepted);
    }
  }

  /**
   Collects the batch under any interleaving; a schedule that ends with tasks running is one the
   caller stops. The calls started and the results accepted are those of the events taken, and the
   end has its cause in them or in control. On success every call is resolved with its own result. Otherwise accepted results
   stay, started calls without one become unknown, and calls never started stay pending as they were.
   */
  method DispatchCalls(batch: ToolBatch, ids: IdSource, control: Control, targets: set<string>, schedule: seq<Event>)
    returns (error: Option<ProcessingError>, started: set<BlockId>, accepted: Answers, ghost taken: nat)
    requires ids as object != batch && control as object != batch && control as object != ids
    requires ids.Valid() && Sound(batch.Current()) && AllBound(batch.Current(), targets)
    modifies batch, ids, control
    ensures Sound(batch.Current()) && ids.next >= old(ids.next)
    ensures Settlement(old(batch.Current()), batch.Current(), started, accepted)
    ensures EachSettled(old(batch.Current()), batch.Current(), started, accepted)
    ensures var pending := PendingIds(old(batch.Current()));
            && Observed(schedule, taken, pending, started, accepted)
            && EndedBy(schedule, taken, pending, accepted, control.HasStopped(), error)
    ensures error.None? ==> batch.completed == |batch.entries|
                            && accepted.Keys == started == PendingIds(old(batch.Current()))
  {
    ghost var before := batch.Current();
    ghost var tasks;
    error, started, accepted, tasks, taken := Collect(batch, ids, control, schedule);
    if error.Some? {
      Settle(batch, ids, started, before, tasks, accepted);
    } else {
      NothingPending(batch.Current());
      AllAnswered(before, batch.Current(), started, accepted);
      SettlementTells(before, batch.Current(), started, accepted);
    }
  }
}
