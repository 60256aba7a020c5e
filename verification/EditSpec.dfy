/**
 What an atomic edit means: the replacements no later one conflicts with, spliced into the
 original from right to left, then the appended blocks.
 */
module EditSpec {
  import opened Wrappers
  import opened Blocks

  /** A half-open range of the original blocks and what goes in its place. */
  datatype Replacement = Replacement(start: nat, end: nat, with_: seq<Block>)

  datatype EditError =
    | InvalidRange(index: nat, start: nat, end: nat, len: nat)
    | DuplicateBlockId(id: BlockId)
    | BlockIdentityMismatch(id: BlockId)

  predicate InRange(r: Replacement, len: nat) {
    r.start <= r.end <= len
  }

  function FirstInvalid(rs: seq<Replacement>, len: nat, from: nat): Option<EditError>
    requires from <= |rs|
    decreases |rs| - from
  {
    if from == |rs| then None
    else if InRange(rs[from], len) then FirstInvalid(rs, len, from + 1)
    else Some(InvalidRange(from, rs[from].start, rs[from].end, len))
  }

  predicate IsInsertion(r: Replacement) {
    r.start >= r.end
  }

  predicate Conflict(left: Replacement, right: Replacement) {
    if IsInsertion(left) then
      if IsInsertion(right) then left.start == right.start else right.start <= left.start < right.end
    else if IsInsertion(right) then left.start <= right.start < left.end
    else left.start < right.end && right.start < left.end
  }

  // -- the replacements that take effect --------------------------------------------------

  predicate Within(indices: seq<nat>, n: nat) {
    forall k :: 0 <= k < |indices| ==> indices[k] < n
  }

  function Retained(rs: seq<Replacement>, indices: seq<nat>, incoming: Replacement): (kept: seq<nat>)
    requires Within(indices, |rs|)
    ensures Within(kept, |rs|)
    ensures forall i: nat {:trigger i in kept} :: i in kept <==> i in indices && i < |rs| && !Conflict(incoming, rs[i])
  {
    if indices == [] then []
    else
      var past := Retained(rs, indices[..|indices| - 1], incoming);
      var last := indices[|indices| - 1];
      if Conflict(incoming, rs[last]) then past else past + [last]
  }

  /** The survivors among the first `n`: each newcomer drops the earlier ones it conflicts with. */
  function Survivors(rs: seq<Replacement>, n: nat): (kept: seq<nat>)
    requires n <= |rs|
    ensures Within(kept, n)
  {
    if n == 0 then []
    else
      var kept := Retained(rs, Survivors(rs, n - 1), rs[n - 1]);
      assert forall k :: 0 <= k < |kept| ==> kept[k] in kept;
      kept + [n - 1]
  }

  lemma SurvivorsNext(rs: seq<Replacement>, n: nat)
    requires n < |rs|
    ensures Survivors(rs, n + 1) == Retained(rs, Survivors(rs, n), rs[n]) + [n]
  {
  }

  /** The replacement takes the block at position `p` away. */
  predicate Covers(r: Replacement, p: nat) {
    r.start <= p < r.end
  }

  /**
   Two replacements of blocks meet where both take the same block away, an insertion and one of
   blocks where the insertion's point lies among those blocks, two insertions at the same point.
   */
  ghost predicate Meets(a: Replacement, b: Replacement) {
    if a.start == a.end && b.start == b.end then a.start == b.start
    else if a.start == a.end then Covers(b, a.start)
    else if b.start == b.end then Covers(a, b.start)
    else exists p: nat :: Covers(a, p) && Covers(b, p)
  }

  /** The comparison of bounds says whether two replacements meet. */
  lemma {:induction false} ConflictIsMeeting(a: Replacement, b: Replacement, len: nat)
    requires InRange(a, len) && InRange(b, len)
    ensures Conflict(a, b) <==> Meets(a, b)
  {
    var p := if a.start <= b.start then b.start else a.start;
    if a.start < a.end && b.start < b.end && Conflict(a, b) {
      assert Covers(a, p) && Covers(b, p);
    }
  }

  /** No later replacement meets replacement `i`. */
  ghost predicate Survives(rs: seq<Replacement>, i: nat) {
    i < |rs| && forall j :: i < j < |rs| ==> !Meets(rs[j], rs[i])
  }

  /** Insertion keeping the order of starts; equal starts keep arrival order. */
  function InsertByStart(rs: seq<Replacement>, sorted: seq<nat>, i: nat): (r: seq<nat>)
    requires i < |rs| && Within(sorted, |rs|)
    ensures |r| == |sorted| + 1 && Within(r, |rs|) && forall k :: k in r <==> k == i || k in sorted
  {
    if sorted == [] then [i]
    else
      var last := sorted[|sorted| - 1];
      if rs[last].start <= rs[i].start then sorted + [i]
      else InsertByStart(rs, sorted[..|sorted| - 1], i) + [last]
  }

  function SortByStart(rs: seq<Replacement>, indices: seq<nat>): (r: seq<nat>)
    requires Within(indices, |rs|)
    ensures |r| == |indices| && Within(r, |rs|) && forall k :: k in r <==> k in indices
  {
    if indices == [] then []
    else InsertByStart(rs, SortByStart(rs, indices[..|indices| - 1]), indices[|indices| - 1])
  }

  function EffectiveIndices(rs: seq<Replacement>): (r: seq<nat>)
    ensures Within(r, |rs|)
  {
    SortByStart(rs, Survivors(rs, |rs|))
  }

  function Pick(rs: seq<Replacement>, indices: seq<nat>): (r: seq<Replacement>)
    requires Within(indices, |rs|)
    ensures |r| == |indices| && forall k :: 0 <= k < |r| ==> r[k] == rs[indices[k]]
  {
    seq(|indices|, k requires 0 <= k < |indices| => rs[indices[k]])
  }

  function Effective(rs: seq<Replacement>): seq<Replacement> {
    Pick(rs, EffectiveIndices(rs))
  }

  /** In order of position, each ending before the next one starts. */
  predicate Ordered(es: seq<Replacement>, len: nat) {
    && (forall k :: 0 <= k < |es| ==> InRange(es[k], len))
    && (forall j, k :: 0 <= j < k < |es| ==> es[j].start < es[k].start && es[j].end <= es[k].start)
  }

  // -- the outcome --------------------------------------------------------------------------

  function SpliceOne(blocks: seq<Block>, r: Replacement): seq<Block>
    requires InRange(r, |blocks|)
  {
    blocks[..r.start] + r.with_ + blocks[r.end..]
  }

  /** Right to left, so that earlier positions stay where they were. */
  function Spliced(blocks: seq<Block>, es: seq<Replacement>): seq<Block>
    requires Ordered(es, |blocks|)
    decreases |es|
  {
    if es == [] then blocks
    else Spliced(SpliceOne(blocks, es[|es| - 1]), es[..|es| - 1])
  }

  function Inserted(es: seq<Replacement>): seq<Block> {
    if es == [] then [] else Inserted(es[..|es| - 1]) + es[|es| - 1].with_
  }

  /** An incoming block that reuses an original's id for something else. */
  predicate Mismatched(originals: seq<Block>, incoming: Block) {
    exists k :: 0 <= k < |originals| && originals[k].id == incoming.id && originals[k] != incoming
  }

  function FirstMismatch(originals: seq<Block>, incoming: seq<Block>): Option<BlockId> {
    if incoming == [] then None
    else if Mismatched(originals, incoming[0]) then Some(incoming[0].id)
    else FirstMismatch(originals, incoming[1..])
  }

  /** The first id that was already there. */
  function FirstRepeat(ids: seq<BlockId>): Option<BlockId> {
    if ids == [] then None
    else
      var past := FirstRepeat(ids[..|ids| - 1]);
      if past.Some? then past
      else if ids[|ids| - 1] in ids[..|ids| - 1] then Some(ids[|ids| - 1]) else None
  }

  function Rebuilt(blocks: seq<Block>, es: seq<Replacement>, appended: seq<Block>): seq<Block>
    requires Ordered(es, |blocks|)
  {
    Spliced(blocks, es) + appended
  }

  // -- who survives -------------------------------------------------------------------------

  /** Not dropped by the first `n` replacements. */
  predicate SurvivesUpTo(rs: seq<Replacement>, i: nat, n: nat)
    requires n <= |rs|
  {
    i < n && forall j :: i < j < n ==> !Conflict(rs[j], rs[i])
  }

  lemma {:induction false} UpToMore(rs: seq<Replacement>, i: nat, n: nat)
    requires n < |rs|
    ensures SurvivesUpTo(rs, i, n + 1) <==> i == n || (SurvivesUpTo(rs, i, n) && !Conflict(rs[n], rs[i]))
  {
  }

  lemma {:induction false} MemberMore(rs: seq<Replacement>, past: seq<nat>, i: nat, n: nat)
    requires n < |rs| && Within(past, n) && Within(past, |rs|)
    ensures i in Retained(rs, past, rs[n]) + [n] <==> i == n || (i in past && i < |rs| && !Conflict(rs[n], rs[i]))
  {
  }

  lemma {:induction false} SurvivorsExactly(rs: seq<Replacement>, i: nat, n: nat)
    requires n <= |rs|
    ensures i in Survivors(rs, n) <==> SurvivesUpTo(rs, i, n)
    decreases n
  {
    if n > 0 {
      SurvivorsExactly(rs, i, n - 1);
      SurvivorsNext(rs, n - 1);
      MemberMore(rs, Survivors(rs, n - 1), i, n - 1);
      UpToMore(rs, i, n - 1);
    }
  }

  predicate Increasing(s: seq<nat>) {
    forall a, b :: 0 <= a < b < |s| ==> s[a] < s[b]
  }

  lemma {:induction false} SurvivorsDistinct(rs: seq<Replacement>, n: nat)
    requires n <= |rs|
    ensures Increasing(Survivors(rs, n))
  {
    if n > 0 {
      SurvivorsDistinct(rs, n - 1);
      RetainedIncreasing(rs, Survivors(rs, n - 1), rs[n - 1]);
      var kept := Retained(rs, Survivors(rs, n - 1), rs[n - 1]);
      forall k | 0 <= k < |kept| ensures kept[k] < n - 1 {
        assert kept[k] in kept;
      }
    }
  }

  lemma {:induction false} RetainedIncreasing(rs: seq<Replacement>, indices: seq<nat>, incoming: Replacement)
    requires Within(indices, |rs|)
    requires Increasing(indices)
    ensures Increasing(Retained(rs, indices, incoming))
    decreases |indices|
  {
    if indices != [] {
      var past, last := indices[..|indices| - 1], indices[|indices| - 1];
      RetainedIncreasing(rs, past, incoming);
      var kept := Retained(rs, past, incoming);
      forall a | 0 <= a < |kept| ensures kept[a] < last {
        assert kept[a] in kept;
        var k :| 0 <= k < |past| && past[k] == kept[a];
        assert indices[k] < indices[|past|];
      }
    }
  }

  predicate SortedByStart(rs: seq<Replacement>, indices: seq<nat>)
    requires Within(indices, |rs|)
  {
    forall a, b :: 0 <= a < b < |indices| ==> rs[indices[a]].start <= rs[indices[b]].start
  }

  lemma {:induction false} InsertSorts(rs: seq<Replacement>, sorted: seq<nat>, i: nat)
    requires i < |rs| && Within(sorted, |rs|)
    requires SortedByStart(rs, sorted)
    ensures SortedByStart(rs, InsertByStart(rs, sorted, i))
    decreases |sorted|
  {
    if sorted != [] {
      var past, last := sorted[..|sorted| - 1], sorted[|sorted| - 1];
      InsertSorts(rs, past, i);
      var inserted := InsertByStart(rs, past, i);
      if rs[last].start > rs[i].start {
        forall a | 0 <= a < |inserted| ensures rs[inserted[a]].start <= rs[last].start {
          assert inserted[a] == i || inserted[a] in past;
        }
      }
    }
  }

  lemma {:induction false} InsertDistinct(rs: seq<Replacement>, sorted: seq<nat>, i: nat)
    requires i < |rs| && Within(sorted, |rs|)
    requires Distinct(sorted) && i !in sorted
    ensures Distinct(InsertByStart(rs, sorted, i))
    decreases |sorted|
  {
    if sorted != [] {
      var past, last := sorted[..|sorted| - 1], sorted[|sorted| - 1];
      InsertDistinct(rs, past, i);
      var inserted := InsertByStart(rs, past, i);
      forall a | 0 <= a < |inserted| ensures inserted[a] != last {
        assert inserted[a] == i || inserted[a] in past;
      }
    }
  }

  lemma {:induction false} SortSorts(rs: seq<Replacement>, indices: seq<nat>)
    requires Within(indices, |rs|)
    requires Distinct(indices)
    ensures SortedByStart(rs, SortByStart(rs, indices)) && Distinct(SortByStart(rs, indices))
    decreases |indices|
  {
    if indices != [] {
      var past, last := indices[..|indices| - 1], indices[|indices| - 1];
      SortSorts(rs, past);
      InsertSorts(rs, SortByStart(rs, past), last);
      InsertDistinct(rs, SortByStart(rs, past), last);
    }
  }

  lemma ApartWhenNoConflict(a: Replacement, b: Replacement, len: nat)
    requires InRange(a, len) && InRange(b, len) && a.start <= b.start && !Conflict(a, b)
    ensures a.start < b.start && a.end <= b.start
  {
  }

  lemma SurvivorsApart(rs: seq<Replacement>, i: nat, j: nat, len: nat)
    requires Survives(rs, i) && Survives(rs, j) && i != j && rs[i].start <= rs[j].start
    requires InRange(rs[i], len) && InRange(rs[j], len)
    ensures rs[i].start < rs[j].start && rs[i].end <= rs[j].start
  {
    ConflictIsMeeting(rs[j], rs[i], len);
    ConflictIsMeeting(rs[i], rs[j], len);
    if i < j {
      assert !Meets(rs[j], rs[i]);
    } else {
      assert !Meets(rs[i], rs[j]);
    }
    ApartWhenNoConflict(rs[i], rs[j], len);
  }

  lemma {:induction false} SurvivesIsKept(rs: seq<Replacement>, i: nat, len: nat)
    requires forall k :: 0 <= k < |rs| ==> InRange(rs[k], len)
    ensures Survives(rs, i) <==> SurvivesUpTo(rs, i, |rs|)
  {
    forall j | i < j < |rs| ensures Meets(rs[j], rs[i]) <==> Conflict(rs[j], rs[i]) {
      ConflictIsMeeting(rs[j], rs[i], len);
    }
  }

  lemma {:induction false} PickedApart(rs: seq<Replacement>, indices: seq<nat>, len: nat)
    requires Within(indices, |rs|) && Distinct(indices) && SortedByStart(rs, indices)
    requires forall k :: 0 <= k < |rs| ==> InRange(rs[k], len)
    requires forall i: nat :: i in indices ==> Survives(rs, i)
    ensures Ordered(Pick(rs, indices), len)
  {
    var es := Pick(rs, indices);
    forall j, k | 0 <= j < k < |es| ensures es[j].start < es[k].start && es[j].end <= es[k].start {
      assert indices[j] in indices && indices[k] in indices && indices[j] != indices[k];
      SurvivorsApart(rs, indices[j], indices[k], len);
    }
  }

  /**
   The replacements that take effect are exactly those no later one meets, once each; their
   starts strictly increase and their ranges are disjoint.
   */
  lemma {:induction false} EffectiveExactly(rs: seq<Replacement>, len: nat)
    requires forall i :: 0 <= i < |rs| ==> InRange(rs[i], len)
    ensures forall i: nat :: i in EffectiveIndices(rs) <==> Survives(rs, i)
    ensures Distinct(EffectiveIndices(rs))
    ensures Ordered(Effective(rs), len)
  {
    var indices := EffectiveIndices(rs);
    SurvivorsDistinct(rs, |rs|);
    SortSorts(rs, Survivors(rs, |rs|));
    forall i: nat ensures i in indices <==> Survives(rs, i) {
      SurvivorsExactly(rs, i, |rs|);
      SurvivesIsKept(rs, i, len);
    }
    PickedApart(rs, indices, len);
  }

  // -- edits that do not overlap ------------------------------------------------------------

  lemma {:induction false} OrderedSurvive(rs: seq<Replacement>, len: nat, i: nat)
    requires Ordered(rs, len) && i < |rs|
    ensures Survives(rs, i)
  {
    forall j | i < j < |rs| ensures !Meets(rs[j], rs[i]) {
      assert rs[i].end <= rs[j].start;
    }
  }

  lemma {:induction false} IncreasingBound(s: seq<nat>, k: nat)
    requires Increasing(s) && k < |s|
    ensures k <= s[k]
    decreases k
  {
    if k > 0 {
      IncreasingBound(s, k - 1);
    }
  }

  lemma {:induction false} IncreasingHolds(s: seq<nat>, n: nat, k: nat)
    requires Increasing(s) && (forall i: nat :: i in s <==> i < n) && k < n
    ensures k < |s| && s[k] == k
    decreases k
  {
    assert k in s;
    var j :| 0 <= j < |s| && s[j] == k;
    IncreasingBound(s, j);
    if k > 0 {
      IncreasingHolds(s, n, k - 1);
    }
  }

  /** Increasing numbers that are all those below `n` are in their own places. */
  lemma {:induction false} IncreasingAll(s: seq<nat>, n: nat)
    requires Increasing(s) && forall i: nat :: i in s <==> i < n
    ensures |s| == n && forall k: nat :: k < n ==> s[k] == k
  {
    forall k: nat | k < n ensures k < |s| && s[k] == k {
      IncreasingHolds(s, n, k);
    }
    if s != [] {
      assert s[|s| - 1] in s;
      IncreasingBound(s, |s| - 1);
    }
    if n > 0 {
      IncreasingHolds(s, n, n - 1);
    }
  }

  lemma LaterStartsLater(rs: seq<Replacement>, len: nat, i: nat, j: nat)
    requires Ordered(rs, len) && i < |rs| && j < |rs|
    ensures i <= j ==> rs[i].start <= rs[j].start
  {
  }

  /** Replacements in order that do not overlap, next to each other or not, all take effect as they are. */
  lemma {:induction false} OrderedTakeEffect(rs: seq<Replacement>, len: nat)
    requires Ordered(rs, len)
    ensures Effective(rs) == rs
  {
    var indices := EffectiveIndices(rs);
    EffectiveExactly(rs, len);
    forall i: nat ensures i in indices <==> i < |rs| {
      if i < |rs| {
        OrderedSurvive(rs, len, i);
      }
    }
    forall a, b | 0 <= a < b < |indices| ensures indices[a] < indices[b] {
      assert Effective(rs)[a].start < Effective(rs)[b].start;
      LaterStartsLater(rs, len, indices[b], indices[a]);
    }
    IncreasingAll(indices, |rs|);
  }
}
