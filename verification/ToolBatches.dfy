/**
 A batch of tool calls: a completed prefix and a pending suffix. The prefix grows one result at
 a time, in the order the results arrive.
 */
module ToolBatches {
  import opened Wrappers
  import opened Blocks

  datatype Call = Call(callBlockId: BlockId, input: ToolInput, resultNotes: seq<string>)

  datatype Recorded = Recorded(id: BlockId, payload: ToolResult)

  datatype Entry = Entry(call: Call, result: Option<Recorded>) {
    function Id(): BlockId {
      call.callBlockId
    }
  }

  datatype Batch = Batch(entries: seq<Entry>, completed: nat)

  datatype BatchError =
    | DuplicateDeclaration(id: BlockId)
    | InvalidIndex(index: nat, completed: nat, total: nat)
    | MismatchedCall(expected: BlockId, actual: BlockId)
    | DuplicateResultBlockId(id: BlockId)
    | InvalidPartition
    | Incomplete(completed: nat, total: nat)

  // -- the invariant ------------------------------------------------------------------------

  predicate DistinctDeclarations(entries: seq<Entry>) {
    forall i, j :: 0 <= i < j < |entries| ==> entries[i].Id() != entries[j].Id()
  }

  /** Entry `i` is on the right side of the partition, and its result answers its own call. */
  predicate Placed(b: Batch, i: nat)
    requires i < |b.entries|
  {
    var result := b.entries[i].result;
    if i < b.completed then result.Some? && result.value.payload.callBlockId == b.entries[i].Id()
    else result.None?
  }

  predicate IsDeclared(entries: seq<Entry>, id: BlockId) {
    exists i :: 0 <= i < |entries| && entries[i].Id() == id
  }

  predicate IsResult(entries: seq<Entry>, id: BlockId) {
    exists i :: 0 <= i < |entries| && entries[i].result.Some? && entries[i].result.value.id == id
  }

  /** Result ids are new: no declaration has them and no two results share one. */
  predicate DistinctResults(entries: seq<Entry>) {
    && (forall i :: 0 <= i < |entries| && entries[i].result.Some? ==> !IsDeclared(entries, entries[i].result.value.id))
    && (forall i, j :: 0 <= i < j < |entries| && entries[i].result.Some? && entries[j].result.Some? ==>
                         entries[i].result.value.id != entries[j].result.value.id)
  }

  predicate Sound(b: Batch) {
    && b.completed <= |b.entries| && DistinctDeclarations(b.entries)
    && (forall i :: 0 <= i < |b.entries| ==> Placed(b, i))
    && DistinctResults(b.entries)
  }

  predicate IsPending(b: Batch, id: BlockId) {
    exists i :: b.completed <= i < |b.entries| && b.entries[i].Id() == id
  }

  function PendingIds(b: Batch): (ids: set<BlockId>)
    ensures forall id :: id in ids <==> IsPending(b, id)
  {
    set i | b.completed <= i < |b.entries| :: b.entries[i].Id()
  }

  /** The declarations a batch is about. */
  function Members(entries: seq<Entry>): set<BlockId> {
    set i | 0 <= i < |entries| :: entries[i].Id()
  }

  /** The batch without its order: each declaration's entry. */
  function View(entries: seq<Entry>): (v: map<BlockId, Entry>)
    requires DistinctDeclarations(entries)
    ensures forall i :: 0 <= i < |entries| ==> entries[i].Id() in v && v[entries[i].Id()] == entries[i]
    ensures forall id :: id in v <==> IsDeclared(entries, id)
  {
    map i | 0 <= i < |entries| :: entries[i].Id() := entries[i]
  }

  lemma MembersAreKeys(entries: seq<Entry>)
    requires DistinctDeclarations(entries)
    ensures View(entries).Keys == Members(entries)
  {
  }

  function Opened(calls: seq<Call>): Batch {
    Batch(seq(|calls|, i requires 0 <= i < |calls| => Entry(calls[i], None)), 0)
  }

  // -- resolving ------------------------------------------------------------------------------

  /** The entry once its result is in: the notes taken before the call come first. */
  function Settled(e: Entry, id: BlockId, payload: ToolResult): Entry {
    Entry(e.call.(resultNotes := []), Some(Recorded(id, payload.(notes := e.call.resultNotes + payload.notes))))
  }

  function Swapped(entries: seq<Entry>, i: nat, j: nat): (r: seq<Entry>)
    requires i < |entries| && j < |entries|
    ensures |r| == |entries|
  {
    entries[i := entries[j]][j := entries[i]]
  }

  function Resolved(b: Batch, index: nat, id: BlockId, payload: ToolResult): (r: Batch)
    requires b.completed <= index < |b.entries|
    ensures |r.entries| == |b.entries|
  {
    Batch(Swapped(b.entries[index := Settled(b.entries[index], id, payload)], index, b.completed), b.completed + 1)
  }

  /** Why a sound batch refuses a result. */
  function Refusal(b: Batch, index: nat, id: BlockId, payload: ToolResult): Option<BatchError> {
    if !(b.completed <= index < |b.entries|) then Some(InvalidIndex(index, b.completed, |b.entries|))
    else if payload.callBlockId != b.entries[index].Id() then
      Some(MismatchedCall(b.entries[index].Id(), payload.callBlockId))
    else if IsDeclared(b.entries, id) || IsResult(b.entries, id) then Some(DuplicateResultBlockId(id))
    else None
  }

  lemma ResolvedEntry(b: Batch, index: nat, id: BlockId, payload: ToolResult, k: nat)
    requires b.completed <= index < |b.entries| && k < |b.entries|
    ensures var r := Resolved(b, index, id, payload).entries;
            && |r| == |b.entries|
            && r[k] == (if k == b.completed then Settled(b.entries[index], id, payload)
                        else if k == index then b.entries[b.completed] else b.entries[k])
  {
  }

  lemma ResolvedDeclares(b: Batch, index: nat, id: BlockId, payload: ToolResult, other: BlockId)
    requires b.completed <= index < |b.entries|
    ensures IsDeclared(Resolved(b, index, id, payload).entries, other) <==> IsDeclared(b.entries, other)
  {
    var r := Resolved(b, index, id, payload).entries;
    if IsDeclared(b.entries, other) {
      var k :| 0 <= k < |b.entries| && b.entries[k].Id() == other;
      var to := if k == index then b.completed else if k == b.completed then index else k;
      ResolvedEntry(b, index, id, payload, to);
      assert r[to].Id() == other;
    }
    if IsDeclared(r, other) {
      var k :| 0 <= k < |r| && r[k].Id() == other;
      var from := if k == b.completed then index else if k == index then b.completed else k;
      ResolvedEntry(b, index, id, payload, k);
      assert b.entries[from].Id() == other;
    }
  }

  lemma ResolvedDistinct(b: Batch, index: nat, id: BlockId, payload: ToolResult)
    requires Sound(b) && Refusal(b, index, id, payload).None?
    ensures var r := Resolved(b, index, id, payload);
            DistinctDeclarations(r.entries) && forall i :: 0 <= i < |r.entries| ==> Placed(r, i)
  {
    var r := Resolved(b, index, id, payload);
    forall i, j | 0 <= i < j < |r.entries| ensures r.entries[i].Id() != r.entries[j].Id() {
      ResolvedEntry(b, index, id, payload, i);
      ResolvedEntry(b, index, id, payload, j);
    }
    forall i | 0 <= i < |r.entries| ensures Placed(r, i) {
      ResolvedEntry(b, index, id, payload, i);
      assert Placed(b, i) && Placed(b, index) && Placed(b, b.completed);
    }
  }

  /** A result that is not refused keeps the batch sound. */
  lemma ResolvedSound(b: Batch, index: nat, id: BlockId, payload: ToolResult)
    requires Sound(b) && Refusal(b, index, id, payload).None?
    ensures Sound(Resolved(b, index, id, payload))
  {
    var r := Resolved(b, index, id, payload);
    ResolvedDistinct(b, index, id, payload);
    forall i | 0 <= i < |r.entries| && r.entries[i].result.Some?
      ensures !IsDeclared(r.entries, r.entries[i].result.value.id)
    {
      ResolvedEntry(b, index, id, payload, i);
      ResolvedDeclares(b, index, id, payload, r.entries[i].result.value.id);
    }
    forall i, j | 0 <= i < j < |r.entries| && r.entries[i].result.Some? && r.entries[j].result.Some?
      ensures r.entries[i].result.value.id != r.entries[j].result.value.id
    {
      ResolvedEntry(b, index, id, payload, i);
      ResolvedEntry(b, index, id, payload, j);
      assert Placed(b, i) && Placed(b, j) && Placed(b, index);
      assert !IsResult(b.entries, id);
    }
  }

  lemma {:induction false} ResolvedLookup(b: Batch, index: nat, id: BlockId, payload: ToolResult, i: nat)
    requires Sound(b) && Refusal(b, index, id, payload).None? && i < |b.entries|
    ensures var r, e := Resolved(b, index, id, payload).entries, b.entries[index];
            r[i] == (if r[i].Id() == e.Id() then Settled(e, id, payload) else View(b.entries)[r[i].Id()])
            && (r[i].Id() == e.Id() || r[i].Id() in View(b.entries))
  {
    ResolvedEntry(b, index, id, payload, i);
    assert Settled(b.entries[index], id, payload).Id() == b.entries[index].Id();
  }

  lemma {:induction false} ResolvedKeys(b: Batch, index: nat, id: BlockId, payload: ToolResult)
    requires Sound(b) && Refusal(b, index, id, payload).None? && Sound(Resolved(b, index, id, payload))
    ensures View(Resolved(b, index, id, payload).entries).Keys == View(b.entries).Keys
  {
    var r := Resolved(b, index, id, payload);
    forall k ensures k in View(r.entries) <==> k in View(b.entries) {
      ResolvedDeclares(b, index, id, payload, k);
    }
  }

  /** The declarations with one of them resolved. */
  function ViewWith(b: Batch, e: Entry, id: BlockId, payload: ToolResult): map<BlockId, Entry>
    requires DistinctDeclarations(b.entries)
  {
    View(b.entries)[e.Id() := Settled(e, id, payload)]
  }

  lemma ResolvedHolds(b: Batch, index: nat, id: BlockId, payload: ToolResult, i: nat)
    requires Sound(b) && Refusal(b, index, id, payload).None? && i < |b.entries|
    ensures var r, w := Resolved(b, index, id, payload).entries, ViewWith(b, b.entries[index], id, payload);
            r[i].Id() in w && r[i] == w[r[i].Id()]
  {
    ResolvedLookup(b, index, id, payload, i);
  }

  lemma ResolvedAll(b: Batch, index: nat, id: BlockId, payload: ToolResult)
    requires Sound(b) && Refusal(b, index, id, payload).None?
    ensures Matches(Resolved(b, index, id, payload).entries, ViewWith(b, b.entries[index], id, payload))
  {
    var r, w := Resolved(b, index, id, payload), ViewWith(b, b.entries[index], id, payload);
    forall i: nat | i < |b.entries| ensures r.entries[i].Id() in w && r.entries[i] == w[r.entries[i].Id()] {
      ResolvedHolds(b, index, id, payload, i);
    }
  }

  /** Resolving touches one declaration, wherever the entries end up. */
  lemma ResolvedView(b: Batch, index: nat, id: BlockId, payload: ToolResult)
    requires Sound(b) && Refusal(b, index, id, payload).None?
    ensures Sound(Resolved(b, index, id, payload))
    ensures var e := b.entries[index];
            View(Resolved(b, index, id, payload).entries) == View(b.entries)[e.Id() := Settled(e, id, payload)]
  {
    assert index < |b.entries|;
    ResolvedSound(b, index, id, payload);
    ResolvedKeys(b, index, id, payload);
    ResolvedAll(b, index, id, payload);
    ViewFrom(b, Resolved(b, index, id, payload), index, id, payload);
  }

  lemma {:induction false} ViewFrom(b: Batch, r: Batch, index: nat, id: BlockId, payload: ToolResult)
    requires DistinctDeclarations(b.entries) && DistinctDeclarations(r.entries) && index < |b.entries|
    requires View(r.entries).Keys == View(b.entries).Keys && Matches(r.entries, ViewWith(b, b.entries[index], id, payload))
    ensures View(r.entries) == ViewWith(b, b.entries[index], id, payload)
  {
    assert b.entries[index].Id() in View(b.entries);
    ViewIs(r.entries, ViewWith(b, b.entries[index], id, payload));
  }

  /** Each entry is the one the map holds for its declaration. */
  predicate Matches(entries: seq<Entry>, w: map<BlockId, Entry>) {
    forall i :: 0 <= i < |entries| ==> entries[i].Id() in w && entries[i] == w[entries[i].Id()]
  }

  lemma ViewIs(entries: seq<Entry>, w: map<BlockId, Entry>)
    requires DistinctDeclarations(entries) && View(entries).Keys == w.Keys
    requires Matches(entries, w)
    ensures View(entries) == w
  {
  }

  // -- ids --------------------------------------------------------------------------------------

  /** A generator of ids that never repeats itself. */
  class IdSource {
    const generate: nat -> BlockId
    var next: nat

    ghost predicate Valid() {
      forall i, j :: generate(i) == generate(j) ==> i == j
    }

    constructor (generate: nat -> BlockId)
      requires forall i, j :: generate(i) == generate(j) ==> i == j
      ensures Valid() && this.generate == generate && next == 0
    {
      this.generate := generate;
      next := 0;
    }

    method Fresh() returns (id: BlockId)
      modifies this
      ensures next == old(next) + 1 && id == generate(old(next))
    {
      id := generate(next);
      next := next + 1;
    }

    /** The ids of `used` that are still to come. */
    ghost function Ahead(used: set<BlockId>): set<BlockId>
      reads this
    {
      set id | id in used && exists k :: k >= next && generate(k) == id
    }
  }

  // -- the batch ----------------------------------------------------------------------------------

  /** What is wrong with the batch, when validation says so. */
  ghost predicate Faulty(b: Batch, e: BatchError) {
    match e
    case DuplicateDeclaration(id) =>
      exists i, j :: 0 <= i < j < |b.entries| && b.entries[i].Id() == id && b.entries[j].Id() == id
    case MismatchedCall(expected, actual) =>
      && expected != actual
      && exists i :: 0 <= i < |b.entries| && b.entries[i].Id() == expected && b.entries[i].result.Some?
                     && b.entries[i].result.value.payload.callBlockId == actual
    case DuplicateResultBlockId(id) =>
      IsResult(b.entries, id) && !DistinctResults(b.entries)
    case InvalidPartition =>
      b.completed > |b.entries| || exists i :: 0 <= i < |b.entries| && (i < b.completed) != b.entries[i].result.Some?
    case _ => false
  }

  class ToolBatch {
    var entries: seq<Entry>
    var completed: nat

    ghost function Current(): Batch
      reads this
    {
      Batch(entries, completed)
    }

    constructor Opening(calls: seq<Call>)
      ensures Current() == Opened(calls)
    {
      entries := seq(|calls|, i requires 0 <= i < |calls| => Entry(calls[i], None));
      completed := 0;
    }

    /** Opens a batch of distinct declarations, all pending. */
    static method New(calls: seq<Call>) returns (result: Result<ToolBatch, BatchError>)
      ensures result.Ok? <==> Distinct(CallIds(calls))
      ensures result.Ok? ==> fresh(result.value) && result.value.Current() == Opened(calls) && Sound(Opened(calls))
      ensures result.Err? ==> exists i, j :: 0 <= i < j < |calls| && calls[i].callBlockId == calls[j].callBlockId
    {
      var declarations, k := {}, 0;
      while k < |calls|
        invariant 0 <= k <= |calls|
        invariant declarations == set i | 0 <= i < k :: calls[i].callBlockId
        invariant forall i, j :: 0 <= i < j < k ==> calls[i].callBlockId != calls[j].callBlockId
      {
        var id := calls[k].callBlockId;
        if id in declarations {
          var i :| 0 <= i < k && calls[i].callBlockId == id;
          assert CallIds(calls)[i] == CallIds(calls)[k];
          return Err(DuplicateDeclaration(id));
        }
        declarations := declarations + {id};
        k := k + 1;
      }
      var batch := new ToolBatch.Opening(calls);
      OpenedSound(calls);
      var refused := batch.Validate();
      assert refused == None;
      result := Ok(batch);
    }

    method Validate() returns (refused: Option<BatchError>)
      ensures refused.None? <==> Sound(Current())
      ensures refused.Some? ==> Faulty(Current(), refused.value)
    {
      if completed > |entries| {
        return Some(InvalidPartition);
      }
      var declarations: set<BlockId>;
      refused, declarations := CheckDeclarations();
      if refused.None? {
        refused := CheckResults(declarations);
      }
    }

    method CheckDeclarations() returns (refused: Option<BatchError>, declarations: set<BlockId>)
      ensures refused.None? ==> DistinctDeclarations(entries) && forall id :: id in declarations <==> IsDeclared(entries, id)
      ensures refused.Some? ==> !DistinctDeclarations(entries) && Faulty(Current(), refused.value)
    {
      declarations := {};
      var k := 0;
      while k < |entries|
        invariant 0 <= k <= |entries|
        invariant declarations == set i | 0 <= i < k :: entries[i].Id()
        invariant DistinctDeclarations(entries[..k])
      {
        var id := entries[k].Id();
        if id in declarations {
          var i :| 0 <= i < k && entries[i].Id() == id;
          return Some(DuplicateDeclaration(id)), declarations;
        }
        declarations := declarations + {id};
        k := k + 1;
      }
      assert entries[..k] == entries;
      refused := None;
    }

    method CheckResults(declarations: set<BlockId>) returns (refused: Option<BatchError>)
      requires completed <= |entries| && DistinctDeclarations(entries)
      requires forall id :: id in declarations <==> IsDeclared(entries, id)
      ensures refused.None? <==> Sound(Current())
      ensures refused.Some? ==> Faulty(Current(), refused.value)
    {
      var ids, k := declarations, 0;
      while k < |entries|
        invariant 0 <= k <= |entries|
        invariant forall i :: 0 <= i < k ==> Placed(Current(), i)
        invariant forall id :: id in ids <==> IsDeclared(entries, id) || IsResult(entries[..k], id)
        invariant DistinctResultsUpTo(entries, k)
      {
        var entry := entries[k];
        if (k < completed) != entry.result.Some? {
          assert !Placed(Current(), k);
          return Some(InvalidPartition);
        }
        if entry.result.Some? {
          var recorded := entry.result.value;
          if recorded.payload.callBlockId != entry.Id() {
            assert !Placed(Current(), k);
            return Some(MismatchedCall(entry.Id(), recorded.payload.callBlockId));
          }
          if recorded.id in ids {
            TakenId(entries, k, recorded.id);
            return Some(DuplicateResultBlockId(recorded.id));
          }
          ids := ids + {recorded.id};
        }
        ResultsGrow(entries, k);
        k := k + 1;
      }
      UpToAll(entries);
      refused := None;
    }

    /** Installs a result and advances the prefix; a refused one changes nothing. */
    method ResolveAt(index: nat, resultId: BlockId, payload: ToolResult) returns (refused: Option<BatchError>)
      modifies this
      ensures !Sound(old(Current())) ==> refused.Some?
      ensures Sound(old(Current())) ==> refused == Refusal(old(Current()), index, resultId, payload)
      ensures refused.Some? ==> Current() == old(Current())
      ensures refused.None? ==> old(completed) <= index < |old(entries)|
                                && Current() == Resolved(old(Current()), index, resultId, payload) && Sound(Current())
    {
      refused := CheckResolve(index, resultId, payload);
      if refused.Some? {
        return;
      }
      ResolvedSound(Current(), index, resultId, payload);
      var notes := entries[index].call.resultNotes + payload.notes;
      var call := entries[index].call.(resultNotes := []);
      entries := entries[index := Entry(call, Some(Recorded(resultId, payload.(notes := notes))))];
      entries := entries[index := entries[completed]][completed := entries[index]];
      completed := completed + 1;
    }

    method CheckResolve(index: nat, resultId: BlockId, payload: ToolResult) returns (refused: Option<BatchError>)
      ensures !Sound(Current()) ==> refused.Some?
      ensures Sound(Current()) ==> refused == Refusal(Current(), index, resultId, payload)
    {
      refused := Validate();
      if refused.Some? {
        return;
      }
      if index < completed || index >= |entries| {
        return Some(InvalidIndex(index, completed, |entries|));
      }
      var expected := entries[index].Id();
      if payload.callBlockId != expected {
        return Some(MismatchedCall(expected, payload.callBlockId));
      }
      var k := 0;
      while k < |entries|
        invariant 0 <= k <= |entries|
        invariant !IsDeclared(entries[..k], resultId) && !IsResult(entries[..k], resultId)
      {
        if entries[k].Id() == resultId || (entries[k].result.Some? && entries[k].result.value.id == resultId) {
          return Some(DuplicateResultBlockId(resultId));
        }
        k := k + 1;
      }
      assert entries[..k] == entries;
      refused := None;
    }

    /** The results of a complete batch, in the order they arrived. */
    method IntoResults() returns (result: Result<seq<Recorded>, BatchError>)
      ensures result.Ok? <==> Sound(Current()) && completed == |entries|
      ensures result.Ok? ==> && |result.value| == |entries|
                             && forall i :: 0 <= i < |entries| ==> entries[i].result == Some(result.value[i])
    {
      var refused := Validate();
      if refused.Some? {
        return Err(refused.value);
      }
      if completed != |entries| {
        return Err(Incomplete(completed, |entries|));
      }
      forall i | 0 <= i < |entries| ensures entries[i].result.Some? {
        assert Placed(Current(), i);
      }
      result := Ok(ResultsOf(entries));
    }
  }

  function ResultsOf(entries: seq<Entry>): (r: seq<Recorded>)
    requires forall i :: 0 <= i < |entries| ==> entries[i].result.Some?
    ensures |r| == |entries| && forall i :: 0 <= i < |entries| ==> entries[i].result == Some(r[i])
  {
    seq(|entries|, i requires 0 <= i < |entries| => entries[i].result.value)
  }

  function CallIds(calls: seq<Call>): seq<BlockId> {
    seq(|calls|, i requires 0 <= i < |calls| => calls[i].callBlockId)
  }

  lemma OpenedSound(calls: seq<Call>)
    requires forall i, j :: 0 <= i < j < |calls| ==> calls[i].callBlockId != calls[j].callBlockId
    ensures Sound(Opened(calls)) && Distinct(CallIds(calls))
  {
  }

  predicate DistinctResultsUpTo(entries: seq<Entry>, k: nat)
    requires k <= |entries|
  {
    && (forall i :: 0 <= i < k && entries[i].result.Some? ==> !IsDeclared(entries, entries[i].result.value.id))
    && (forall i, j :: 0 <= i < j < k && entries[i].result.Some? && entries[j].result.Some? ==>
                         entries[i].result.value.id != entries[j].result.value.id)
  }

  lemma UpToAll(entries: seq<Entry>)
    requires DistinctResultsUpTo(entries, |entries|)
    ensures DistinctResults(entries)
  {
  }

  lemma TakenId(entries: seq<Entry>, k: nat, id: BlockId)
    requires k < |entries| && entries[k].result.Some? && entries[k].result.value.id == id
    requires IsDeclared(entries, id) || IsResult(entries[..k], id)
    ensures !DistinctResults(entries) && IsResult(entries, id)
  {
    if IsResult(entries[..k], id) {
      var i :| 0 <= i < k && entries[..k][i].result.Some? && entries[..k][i].result.value.id == id;
      assert entries[i].result.value.id == id;
    }
  }

  lemma {:induction false} ResultsGrow(entries: seq<Entry>, k: nat)
    requires k < |entries| && DistinctResultsUpTo(entries, k)
    requires entries[k].result.Some? ==> !IsDeclared(entries, entries[k].result.value.id)
                                         && !IsResult(entries[..k], entries[k].result.value.id)
    ensures DistinctResultsUpTo(entries, k + 1)
    ensures forall id :: IsResult(entries[..k + 1], id) <==>
                         IsResult(entries[..k], id) || (entries[k].result.Some? && entries[k].result.value.id == id)
  {
    var now, next := entries[..k], entries[..k + 1];
    forall i | 0 <= i < k && entries[i].result.Some? && entries[k].result.Some?
      ensures entries[i].result.value.id != entries[k].result.value.id
    {
      assert now[i] == entries[i];
    }
    forall id ensures IsResult(next, id) <==> IsResult(now, id) || (entries[k].result.Some? && entries[k].result.value.id == id) {
      if IsResult(now, id) {
        var i :| 0 <= i < k && now[i].result.Some? && now[i].result.value.id == id;
        assert next[i] == now[i];
      }
      if entries[k].result.Some? && entries[k].result.value.id == id {
        assert next[k] == entries[k];
      }
      if IsResult(next, id) {
        var i :| 0 <= i < k + 1 && next[i].result.Some? && next[i].result.value.id == id;
        assert i < k ==> now[i] == next[i];
      }
    }
  }
}
