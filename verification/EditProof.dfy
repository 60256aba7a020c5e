/** Facts about edits: the forward walk, unique ids, and identities kept over every run of edits. */
module EditProof {
  import opened Wrappers
  import opened Blocks
  import opened EditSpec

  // -- walking forwards ---------------------------------------------------------------------

  /** Blocks past every replacement stay at the end. */
  lemma {:induction false} SplicedFrame(blocks: seq<Block>, es: seq<Replacement>, tail: seq<Block>)
    requires Ordered(es, |blocks|)
    ensures Ordered(es, |blocks + tail|)
    ensures Spliced(blocks + tail, es) == Spliced(blocks, es) + tail
    decreases |es|
  {
    if es != [] {
      var last, past := es[|es| - 1], es[..|es| - 1];
      var one := SpliceOne(blocks, last);
      assert SpliceOne(blocks + tail, last) == one + tail;
      assert one == blocks[..last.start] + (last.with_ + blocks[last.end..]);
      SplicedFrame(one, past, tail);
    }
  }

  /** The next replacement after a walk that stopped at its start. */
  lemma {:induction false} SplicedNext(blocks: seq<Block>, es: seq<Replacement>, k: nat)
    requires Ordered(es, |blocks|) && k < |es|
    ensures Ordered(es[..k], es[k].start) && Ordered(es[..k + 1], es[k].end)
    ensures Spliced(blocks[..es[k].end], es[..k + 1]) == Spliced(blocks[..es[k].start], es[..k]) + es[k].with_
  {
    var e, upto := es[k], blocks[..es[k].end];
    assert es[..k + 1][..k] == es[..k];
    assert SpliceOne(upto, e) == blocks[..e.start] + e.with_;
    SplicedFrame(blocks[..e.start], es[..k], e.with_);
  }

  /** Copied or inserted from position `at` on, before the replacements from `k` on. */
  function Remaining(blocks: seq<Block>, es: seq<Replacement>, k: nat, at: nat): seq<Block>
    requires Ordered(es, |blocks|) && k <= |es| && WalkedTo(blocks, es, k, at)
    decreases |es| - k
  {
    if k == |es| then blocks[at..]
    else blocks[at..es[k].start] + es[k].with_ + Remaining(blocks, es, k + 1, es[k].end)
  }

  /** `at` lies between the replacements before `k` and those from `k` on. */
  predicate WalkedTo(blocks: seq<Block>, es: seq<Replacement>, k: nat, at: nat) {
    && at <= |blocks| && k <= |es|
    && (k > 0 ==> es[k - 1].end <= at) && (k < |es| ==> at <= es[k].start)
  }

  lemma Slices(blocks: seq<Block>, at: nat, to: nat)
    requires at <= to <= |blocks|
    ensures blocks[..to] == blocks[..at] + blocks[at..to]
  {
  }

  lemma Regroup(done: seq<Block>, copied: seq<Block>, inserted: seq<Block>, rest: seq<Block>)
    ensures done + (copied + inserted + rest) == done + copied + inserted + rest
  {
  }

  lemma {:induction false} WalkEnds(blocks: seq<Block>, es: seq<Replacement>, at: nat)
    requires Ordered(es, |blocks|) && WalkedTo(blocks, es, |es|, at)
    ensures Ordered(es, at) && es[..|es|] == es
    ensures Spliced(blocks[..at], es) + blocks[at..] == Spliced(blocks, es)
  {
    Slices(blocks, at, |blocks|);
    assert blocks[..|blocks|] == blocks && blocks[at..|blocks|] == blocks[at..];
    SplicedFrame(blocks[..at], es, blocks[at..]);
  }

  /** Blocks copied after every replacement. */
  lemma SplicedCopy(blocks: seq<Block>, past: seq<Replacement>, at: nat, to: nat)
    requires at <= to <= |blocks| && Ordered(past, at)
    ensures Ordered(past, to) && Spliced(blocks[..to], past) == Spliced(blocks[..at], past) + blocks[at..to]
  {
    Slices(blocks, at, to);
    SplicedFrame(blocks[..at], past, blocks[at..to]);
  }

  lemma OrderedSoFar(blocks: seq<Block>, es: seq<Replacement>, k: nat, at: nat)
    requires Ordered(es, |blocks|) && WalkedTo(blocks, es, k, at)
    ensures Ordered(es[..k], at)
  {
  }

  lemma {:induction false} WalkAgrees(blocks: seq<Block>, es: seq<Replacement>, k: nat, at: nat)
    requires Ordered(es, |blocks|) && WalkedTo(blocks, es, k, at)
    ensures Ordered(es[..k], at)
    ensures Spliced(blocks[..at], es[..k]) + Remaining(blocks, es, k, at) == Spliced(blocks, es)
    decreases |es| - k
  {
    if k == |es| {
      WalkEnds(blocks, es, at);
    } else {
      var e := es[k];
      OrderedSoFar(blocks, es, k, at);
      SplicedCopy(blocks, es[..k], at, e.start);
      SplicedNext(blocks, es, k);
      WalkAgrees(blocks, es, k + 1, e.end);
      Regroup(Spliced(blocks[..at], es[..k]), blocks[at..e.start], e.with_, Remaining(blocks, es, k + 1, e.end));
    }
  }

  /** Building the outcome in one pass from the left is splicing from the right. */
  lemma ForwardIsRightToLeft(blocks: seq<Block>, es: seq<Replacement>)
    requires Ordered(es, |blocks|)
    ensures WalkedTo(blocks, es, 0, 0) && Remaining(blocks, es, 0, 0) == Spliced(blocks, es)
  {
    WalkAgrees(blocks, es, 0, 0);
    assert blocks[..0] == [] && es[..0] == [];
  }

  // -- ids ------------------------------------------------------------------------------------

  lemma {:induction false} FirstRepeatExactly(ids: seq<BlockId>)
    ensures FirstRepeat(ids).None? <==> Distinct(ids)
    decreases |ids|
  {
    if ids != [] {
      var past, last := ids[..|ids| - 1], ids[|ids| - 1];
      FirstRepeatExactly(past);
      assert forall i :: 0 <= i < |past| ==> past[i] == ids[i];
      if last in past {
        var i :| 0 <= i < |past| && past[i] == last;
        assert ids[i] == ids[|ids| - 1];
      }
      if Distinct(ids) {
        assert Distinct(past);
      } else if Distinct(past) {
        var i, j :| 0 <= i < j < |ids| && ids[i] == ids[j];
        assert j == |ids| - 1 && past[i] == last;
      }
    }
  }

  /** A repeat seen early is the first one of the whole. */
  lemma {:induction false} RepeatStays(ids: seq<BlockId>, more: seq<BlockId>)
    requires FirstRepeat(ids).Some?
    ensures FirstRepeat(ids + more) == FirstRepeat(ids)
    decreases |more|
  {
    if more == [] {
      assert ids + more == ids;
    } else {
      var all := ids + more;
      assert all[..|all| - 1] == ids + more[..|more| - 1];
      RepeatStays(ids, more[..|more| - 1]);
    }
  }

  lemma RepeatNow(ids: seq<BlockId>, id: BlockId, more: seq<BlockId>)
    requires Distinct(ids) && id in ids
    ensures FirstRepeat(ids + [id] + more) == Some(id)
  {
    FirstRepeatExactly(ids);
    assert (ids + [id])[..|ids|] == ids;
    RepeatStays(ids + [id], more);
  }

  lemma IdsConcat(a: seq<Block>, b: seq<Block>)
    ensures Ids(a + b) == Ids(a) + Ids(b)
  {
  }

  // -- identities -------------------------------------------------------------------------------

  predicate MatchesOriginals(originals: seq<Block>, incoming: seq<Block>) {
    forall k :: 0 <= k < |incoming| ==> !Mismatched(originals, incoming[k])
  }

  lemma {:induction false} FirstMismatchExactly(originals: seq<Block>, incoming: seq<Block>)
    ensures FirstMismatch(originals, incoming).None? <==> MatchesOriginals(originals, incoming)
  {
    if incoming != [] {
      FirstMismatchExactly(originals, incoming[1..]);
      assert forall k :: 0 < k < |incoming| ==> incoming[k] == incoming[1..][k - 1];
      if MatchesOriginals(originals, incoming[1..]) && !Mismatched(originals, incoming[0]) {
        forall k | 0 <= k < |incoming| ensures !Mismatched(originals, incoming[k]) {
          assert k > 0 ==> incoming[k] == incoming[1..][k - 1];
        }
      }
      if MatchesOriginals(originals, incoming) {
        forall k | 0 <= k < |incoming[1..]| ensures !Mismatched(originals, incoming[1..][k]) {
          assert incoming[1..][k] == incoming[k + 1];
        }
      }
    }
  }

  lemma {:induction false} FirstMismatchConcat(originals: seq<Block>, a: seq<Block>, b: seq<Block>)
    ensures FirstMismatch(originals, a + b) ==
            if FirstMismatch(originals, a).Some? then FirstMismatch(originals, a) else FirstMismatch(originals, b)
    decreases |a|
  {
    if a == [] {
      assert a + b == b;
    } else {
      assert (a + b)[0] == a[0] && (a + b)[1..] == a[1..] + b;
      FirstMismatchConcat(originals, a[1..], b);
    }
  }

  /** Every block of the outcome is an original or was handed in. */
  lemma {:induction false} SplicedSources(blocks: seq<Block>, es: seq<Replacement>, b: Block)
    requires Ordered(es, |blocks|) && b in Spliced(blocks, es)
    ensures b in blocks || b in Inserted(es)
    decreases |es|
  {
    if es != [] {
      var last, past := es[|es| - 1], es[..|es| - 1];
      SplicedSources(SpliceOne(blocks, last), past, b);
    }
  }

  // -- the outcome of an edit -----------------------------------------------------------------

  /** The blocks after an edit, or why it is refused. */
  function EditResult(blocks: seq<Block>, rs: seq<Replacement>, appended: seq<Block>): Result<seq<Block>, EditError> {
    var invalid := FirstInvalid(rs, |blocks|, 0);
    if invalid.Some? then Err(invalid.value)
    else
      RangesValid(rs, |blocks|, 0);
      EffectiveExactly(rs, |blocks|);
      Checked(blocks, Effective(rs), appended)
  }

  /** The outcome of the replacements that take effect, if it keeps identities and repeats no id. */
  function Checked(blocks: seq<Block>, es: seq<Replacement>, appended: seq<Block>): Result<seq<Block>, EditError>
    requires Ordered(es, |blocks|)
  {
    var mismatch := FirstMismatch(blocks, Inserted(es) + appended);
    if mismatch.Some? then Err(BlockIdentityMismatch(mismatch.value))
    else
      var out := Rebuilt(blocks, es, appended);
      var repeat := FirstRepeat(Ids(out));
      if repeat.Some? then Err(DuplicateBlockId(repeat.value)) else Ok(out)
  }

  lemma {:induction false} RangesValid(rs: seq<Replacement>, len: nat, from: nat)
    requires from <= |rs|
    ensures FirstInvalid(rs, len, from).None? <==> forall i :: from <= i < |rs| ==> InRange(rs[i], len)
    decreases |rs| - from
  {
    if from < |rs| {
      RangesValid(rs, len, from + 1);
    }
  }

  /** Every range lies within the material. */
  predicate RangesFit(rs: seq<Replacement>, len: nat) {
    forall i :: 0 <= i < |rs| ==> rs[i].start <= rs[i].end <= len
  }

  /** No incoming block reuses the id of another block that is already there. */
  predicate IdsKept(blocks: seq<Block>, incoming: seq<Block>) {
    forall j, k :: 0 <= j < |incoming| && 0 <= k < |blocks| && incoming[j].id == blocks[k].id ==> incoming[j] == blocks[k]
  }

  lemma RangesOrdered(rs: seq<Replacement>, len: nat)
    requires RangesFit(rs, len)
    ensures FirstInvalid(rs, len, 0).None? && Ordered(Effective(rs), len)
  {
    RangesValid(rs, len, 0);
    EffectiveExactly(rs, len);
  }

  /**
   An edit is accepted exactly when every range lies within the material, what takes effect and
   what is appended reuses no id for another block, and no id occurs twice in the outcome.
   */
  lemma {:induction false} AcceptedExactly(blocks: seq<Block>, rs: seq<Replacement>, appended: seq<Block>)
    ensures RangesFit(rs, |blocks|) ==> Ordered(Effective(rs), |blocks|)
    ensures EditResult(blocks, rs, appended).Ok? <==>
              && RangesFit(rs, |blocks|) && IdsKept(blocks, Inserted(Effective(rs)) + appended)
              && UniqueIds(Rebuilt(blocks, Effective(rs), appended))
    ensures EditResult(blocks, rs, appended).Ok? ==>
              RangesFit(rs, |blocks|) && EditResult(blocks, rs, appended).value == Rebuilt(blocks, Effective(rs), appended)
  {
    RangesValid(rs, |blocks|, 0);
    if RangesFit(rs, |blocks|) {
      RangesOrdered(rs, |blocks|);
      var incoming := Inserted(Effective(rs)) + appended;
      FirstMismatchExactly(blocks, incoming);
      FirstRepeatExactly(Ids(Rebuilt(blocks, Effective(rs), appended)));
      IdsKeptExactly(blocks, incoming);
    }
  }

  lemma IdsKeptExactly(blocks: seq<Block>, incoming: seq<Block>)
    ensures IdsKept(blocks, incoming) <==> MatchesOriginals(blocks, incoming)
  {
    if MatchesOriginals(blocks, incoming) {
      forall j, k | 0 <= j < |incoming| && 0 <= k < |blocks| && incoming[j].id == blocks[k].id
        ensures incoming[j] == blocks[k]
      {
        assert !Mismatched(blocks, incoming[j]);
      }
    }
  }

  /**
   An accepted edit leaves unique ids, and a block id that was there before and is there after
   still denotes the same block: kept, moved, or removed and put back.
   */
  lemma EditKeepsIdentity(blocks: seq<Block>, rs: seq<Replacement>, appended: seq<Block>)
    requires EditResult(blocks, rs, appended).Ok?
    ensures var after := EditResult(blocks, rs, appended).value;
            && UniqueIds(after)
            && SameIdentities(blocks, after)
  {
    RangesValid(rs, |blocks|, 0);
    EffectiveExactly(rs, |blocks|);
    var es, after := Effective(rs), EditResult(blocks, rs, appended).value;
    FirstRepeatExactly(Ids(after));
    FirstMismatchExactly(blocks, Inserted(es) + appended);
    forall i, j | 0 <= i < |blocks| && 0 <= j < |after| && blocks[i].id == after[j].id
      ensures blocks[i] == after[j] || after[j] in blocks
    {
      var incoming, b := Inserted(es) + appended, after[j];
      assert after[j] in Spliced(blocks, es) || after[j] in appended;
      if after[j] in Spliced(blocks, es) {
        SplicedSources(blocks, es, after[j]);
      }
      assert b in blocks || b in incoming;
      if b in incoming {
        var k :| 0 <= k < |incoming| && incoming[k] == b;
        assert !Mismatched(blocks, incoming[k]);
      }
    }
  }

  /** Blocks with the same id are the same block, or the later one is itself an earlier block. */
  predicate SameIdentities(before: seq<Block>, after: seq<Block>) {
    forall i, j :: 0 <= i < |before| && 0 <= j < |after| && before[i].id == after[j].id ==>
                     before[i] == after[j] || after[j] in before
  }

  /** With unique ids there is no other earlier block. */
  lemma IdentityIsBlock(before: seq<Block>, after: seq<Block>, i: nat, j: nat)
    requires UniqueIds(before) && SameIdentities(before, after)
    requires i < |before| && j < |after| && before[i].id == after[j].id
    ensures before[i] == after[j]
  {
    if after[j] in before {
      var k :| 0 <= k < |before| && before[k] == after[j];
      assert Ids(before)[k] == Ids(before)[i];
    }
  }

  // -- runs of edits ----------------------------------------------------------------------------

  datatype Edit = Edit(replacements: seq<Replacement>, appended: seq<Block>)

  /** A refused edit changes nothing. */
  function Applied(blocks: seq<Block>, e: Edit): seq<Block> {
    var r := EditResult(blocks, e.replacements, e.appended);
    if r.Ok? then r.value else blocks
  }

  function AppliedAll(blocks: seq<Block>, edits: seq<Edit>): seq<Block> {
    if edits == [] then blocks else Applied(AppliedAll(blocks, edits[..|edits| - 1]), edits[|edits| - 1])
  }

  /** After any edits, accepted or not, ids are unique and the last edit kept identities. */
  lemma {:induction false} ReachableContexts(edits: seq<Edit>)
    ensures UniqueIds(AppliedAll([], edits))
    ensures edits != [] ==> KeepsBlocks(AppliedAll([], edits[..|edits| - 1]), AppliedAll([], edits))
    decreases |edits|
  {
    if edits != [] {
      var past, e := edits[..|edits| - 1], edits[|edits| - 1];
      var before, after := AppliedAll([], past), AppliedAll([], edits);
      ReachableContexts(past);
      if EditResult(before, e.replacements, e.appended).Ok? {
        EditKeepsIdentity(before, e.replacements, e.appended);
      }
      forall i: nat, j: nat | i < |before| && j < |after| && before[i].id == after[j].id
        ensures before[i] == after[j]
      {
        if after == before {
          assert Ids(before)[i] == Ids(before)[j];
        } else {
          IdentityIsBlock(before, after, i, j);
        }
      }
    }
  }

  predicate KeepsBlocks(before: seq<Block>, after: seq<Block>) {
    forall i, j :: 0 <= i < |before| && 0 <= j < |after| && before[i].id == after[j].id ==> before[i] == after[j]
  }

  /** Identity is kept edit by edit only: removed by one edit, an id may come back changed by the next. */
  lemma IdMayReturnChanged(a: Block, b: Block)
    requires a.id == b.id && a != b
    ensures var added, removed := Edit([], [a]), Edit([Replacement(0, 1, [])], []);
            && AppliedAll([], [added]) == [a]
            && AppliedAll([], [added, removed, Edit([], [b])]) == [b]
  {
    AppendAlone(a);
    AppendAlone(b);
    RemoveAlone(a);
    FirstEdits(Edit([], [a]), Edit([Replacement(0, 1, [])], []), Edit([], [b]));
  }

  lemma AppliedSnoc(past: seq<Edit>, last: Edit)
    ensures AppliedAll([], past + [last]) == Applied(AppliedAll([], past), last)
  {
    assert (past + [last])[..|past|] == past;
  }

  lemma {:induction false} FirstEdits(x: Edit, y: Edit, z: Edit)
    ensures AppliedAll([], [x]) == Applied([], x)
    ensures AppliedAll([], [x, y, z]) == Applied(Applied(Applied([], x), y), z)
  {
    AppliedSnoc([], x);
    AppliedSnoc([x], y);
    AppliedSnoc([x, y], z);
    assert [] + [x] == [x] && [x] + [y] == [x, y] && [x, y] + [z] == [x, y, z];
  }

  lemma {:induction false} AppendAlone(a: Block)
    ensures Applied([], Edit([], [a])) == [a]
  {
    assert Effective([]) == [];
    OneFits(a);
  }

  lemma OneFits(a: Block)
    ensures Ordered([], 0) && Checked([], [], [a]) == Ok([a])
  {
    assert Inserted([]) + [a] == [a];
    assert [a][1..] == [] && FirstMismatch([], [a]) == None;
    assert Ids([a]) == [a.id] && [a.id][..0] == [];
    assert FirstRepeat([a.id]) == None;
    assert Rebuilt([], [], [a]) == [] + [a] == [a];
  }

  lemma {:induction false} RemoveAlone(a: Block)
    ensures Applied([a], Edit([Replacement(0, 1, [])], [])) == []
  {
    var r := Replacement(0, 1, []);
    RangesValid([r], 1, 0);
    OneSurvivor(r);
    RemovesAll(a, r);
    assert Ids([]) == [];
  }

  lemma SurvivorOfOne(r: Replacement)
    ensures Survivors([r], 1) == [0]
  {
    assert Survivors([r], 0) == [] && Retained([r], [], r) == [];
    assert Survivors([r], 1) == Retained([r], Survivors([r], 0), r) + [0];
  }

  lemma OneSurvivor(r: Replacement)
    ensures Effective([r]) == [r]
  {
    SurvivorOfOne(r);
    var one: seq<nat> := [0];
    assert one[..0] == [] && SortByStart([r], []) == [] && InsertByStart([r], [], 0) == [0];
    assert SortByStart([r], one) == InsertByStart([r], SortByStart([r], one[..0]), one[0]);
  }

  lemma RemovesAll(a: Block, r: Replacement)
    requires r == Replacement(0, 1, [])
    ensures Inserted([r]) + [] == [] && Rebuilt([a], [r], []) == []
  {
    assert [r][..0] == [];
    assert Inserted([r]) == [] + [];
    assert Spliced([a], [r]) == SpliceOne([a], r) == [];
  }
}
