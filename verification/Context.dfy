/** The context as an object: one atomic edit operation, refused edits changing nothing. */
module Context {
  import opened Wrappers
  import opened Sequences
  import opened Blocks
  import opened EditSpec
  import opened EditProof

  /** An edit that was refused, with everything that was handed in. */
  datatype EditFailure = EditFailure(reason: EditError, replacements: seq<Replacement>, appended: seq<Block>)

  /** The set holds exactly the ids met so far, each met once. */
  ghost predicate Met(ids: set<BlockId>, visited: seq<BlockId>) {
    Distinct(visited) && forall id :: id in ids <==> id in visited
  }

  /** Meets the ids of `more`, up to the first that was met before. */
  method Meet(ids: set<BlockId>, ghost visited: seq<BlockId>, more: seq<Block>)
    returns (all: set<BlockId>, repeat: Option<BlockId>)
    requires Met(ids, visited)
    ensures repeat.None? ==> Met(all, visited + Ids(more))
    ensures repeat.Some? ==> FirstRepeat(visited + Ids(more)) == repeat
  {
    all := ids;
    var k := 0;
    assert visited + Ids(more[..0]) == visited;
    while k < |more|
      invariant 0 <= k <= |more|
      invariant Met(all, visited + Ids(more[..k]))
    {
      ghost var seen := visited + Ids(more[..k]);
      var id := more[k].id;
      assert visited + Ids(more) == seen + [id] + Ids(more[k + 1..]);
      if id in all {
        RepeatNow(seen, id, Ids(more[k + 1..]));
        return all, Some(id);
      }
      all := all + {id};
      assert visited + Ids(more[..k + 1]) == seen + [id];
      k := k + 1;
    }
    assert more[..k] == more;
    repeat := None;
  }

  class Context {
    var blocks: seq<Block>

    ghost predicate Valid()
      reads this
    {
      UniqueIds(blocks)
    }

    constructor ()
      ensures Valid() && blocks == []
    {
      blocks := [];
    }

    /** Imports material, refusing repeated ids. */
    static method FromBlocks(imported: seq<Block>) returns (result: Result<Context, EditFailure>)
      ensures result.Ok? ==> fresh(result.value) && result.value.Valid() && result.value.blocks == imported
      ensures result.Ok? <==> UniqueIds(imported)
      ensures result.Err? ==> result.error.appended == imported
    {
      var context := new Context();
      var applied := context.Apply([], imported);
      ImportOutcome(imported);
      if applied.Err? {
        return Err(applied.error);
      }
      result := Ok(context);
    }

    method CheckRanges(rs: seq<Replacement>) returns (refused: Option<EditError>)
      ensures refused == FirstInvalid(rs, |blocks|, 0)
    {
      var k := 0;
      while k < |rs|
        invariant 0 <= k <= |rs|
        invariant FirstInvalid(rs, |blocks|, k) == FirstInvalid(rs, |blocks|, 0)
      {
        if rs[k].start > rs[k].end || rs[k].end > |blocks| {
          return Some(InvalidRange(k, rs[k].start, rs[k].end, |blocks|));
        }
        k := k + 1;
      }
      refused := None;
    }

    /** The replacements that take effect, in order of position. */
    method ChooseEffective(rs: seq<Replacement>) returns (effective: seq<nat>)
      ensures effective == EffectiveIndices(rs)
    {
      effective := [];
      var k: nat := 0;
      while k < |rs|
        invariant k <= |rs|
        invariant effective == Survivors(rs, k)
      {
        SurvivorsNext(rs, k);
        effective := Retained(rs, effective, rs[k]) + [k];
        k := k + 1;
      }
      effective := SortByStart(rs, effective);
    }

    /** The block of the context with this id. */
    function Original(id: BlockId): (original: Option<Block>)
      reads this
      ensures original.Some? ==> original.value in blocks && original.value.id == id
      ensures original.None? ==> forall b :: b in blocks ==> b.id != id
    {
      Lookup(blocks, id)
    }

    /** Refuses material that reuses an id for something else. */
    method CheckIdentities(incoming: seq<Block>) returns (refused: Option<BlockId>)
      requires Valid()
      ensures refused == FirstMismatch(blocks, incoming)
    {
      var k := 0;
      assert incoming[0..] == incoming;
      while k < |incoming|
        invariant 0 <= k <= |incoming|
        invariant FirstMismatch(blocks, incoming[k..]) == FirstMismatch(blocks, incoming)
      {
        var existing := Original(incoming[k].id);
        LookupDecides(blocks, incoming[k]);
        assert incoming[k..][1..] == incoming[k + 1..];
        if existing.Some? && existing.value != incoming[k] {
          return Some(incoming[k].id);
        }
        k := k + 1;
      }
      refused := None;
    }

    method CheckAllIdentities(es: seq<Replacement>, appended: seq<Block>) returns (refused: Option<BlockId>)
      requires Valid()
      ensures refused == FirstMismatch(blocks, Inserted(es) + appended)
    {
      var k := 0;
      assert es[..0] == [];
      while k < |es|
        invariant 0 <= k <= |es|
        invariant FirstMismatch(blocks, Inserted(es[..k])) == None
      {
        assert es[..k + 1][..k] == es[..k];
        FirstMismatchConcat(blocks, Inserted(es[..k]), es[k].with_);
        refused := CheckIdentities(es[k].with_);
        if refused.Some? {
          MismatchStays(blocks, es, k + 1, appended);
          return;
        }
        k := k + 1;
      }
      assert es[..k] == es;
      FirstMismatchConcat(blocks, Inserted(es), appended);
      refused := CheckIdentities(appended);
    }

    /** Walks the ids of the outcome without building it. */
    method CheckUnique(es: seq<Replacement>, appended: seq<Block>) returns (repeat: Option<BlockId>)
      requires Ordered(es, |blocks|)
      ensures repeat == FirstRepeat(Ids(Rebuilt(blocks, es, appended)))
    {
      var ids: set<BlockId>, at: nat, k: nat := {}, 0, 0;
      ghost var visited: seq<BlockId>, out := [], Rebuilt(blocks, es, appended);
      ForwardIsRightToLeft(blocks, es);
      while k < |es|
        invariant 0 <= k <= |es| && WalkedTo(blocks, es, k, at)
        invariant Met(ids, visited)
        invariant Ids(out) == visited + Ids(Remaining(blocks, es, k, at) + appended)
      {
        var copied, inserted := blocks[at..es[k].start], es[k].with_;
        ghost var rest := Remaining(blocks, es, k + 1, es[k].end) + appended;
        UnvisitedParts(blocks, es, k, at, appended);
        Associate(visited, Ids(copied), Ids(inserted) + Ids(rest));
        ids, repeat := Meet(ids, visited, copied);
        if repeat.Some? {
          RepeatStays(visited + Ids(copied), Ids(inserted) + Ids(rest));
          return;
        }
        visited := visited + Ids(copied);
        Associate(visited, Ids(inserted), Ids(rest));
        ids, repeat := Meet(ids, visited, inserted);
        if repeat.Some? {
          RepeatStays(visited + Ids(inserted), Ids(rest));
          return;
        }
        visited := visited + Ids(inserted);
        at := es[k].end;
        k := k + 1;
      }
      repeat := CheckTail(ids, visited, blocks[at..], appended);
    }

    /** Applies replacements and appended blocks as one edit, or changes nothing. */
    method Apply(replacements: seq<Replacement>, appended: seq<Block>) returns (result: Result<(), EditFailure>)
      requires Valid()
      modifies this
      ensures Valid()
      ensures match EditResult(old(blocks), replacements, appended)
              case Ok(after) => result == Ok(()) && blocks == after
              case Err(reason) => result == Err(EditFailure(reason, replacements, appended)) && blocks == old(blocks)
    {
      var checked := ValidateEdit(replacements, appended);
      if checked.Err? {
        return Err(EditFailure(checked.error, replacements, appended));
      }
      EditKeepsIdentity(blocks, replacements, appended);
      RangesValid(replacements, |blocks|, 0);
      EffectiveExactly(replacements, |blocks|);
      if replacements == [] {
        assert Effective(replacements) == [];
        blocks := blocks + appended;
        return Ok(());
      }
      var spliced := Build(Pick(replacements, checked.value));
      blocks := spliced + appended;
      result := Ok(());
    }

    method ValidateEdit(rs: seq<Replacement>, appended: seq<Block>) returns (result: Result<seq<nat>, EditError>)
      requires Valid()
      ensures match EditResult(blocks, rs, appended)
              case Ok(_) => result == Ok(EffectiveIndices(rs))
              case Err(reason) => result == Err(reason)
    {
      var invalid := CheckRanges(rs);
      if invalid.Some? {
        return Err(invalid.value);
      }
      var effective := ChooseEffective(rs);
      RangesValid(rs, |blocks|, 0);
      EffectiveExactly(rs, |blocks|);
      var es := Pick(rs, effective);
      var mismatch := CheckAllIdentities(es, appended);
      if mismatch.Some? {
        return Err(BlockIdentityMismatch(mismatch.value));
      }
      var repeat := CheckUnique(es, appended);
      if repeat.Some? {
        return Err(DuplicateBlockId(repeat.value));
      }
      result := Ok(effective);
    }

    method CopyTo(before: seq<Block>, from: nat, to: nat) returns (output: seq<Block>, at: nat)
      requires from <= to <= |blocks|
      ensures output == before + blocks[from..to] && at == to
    {
      output, at := before, from;
      while at < to
        invariant from <= at <= to
        invariant output == before + blocks[from..at]
      {
        output := output + [blocks[at]];
        at := at + 1;
      }
    }

    method SkipTo(from: nat, to: nat) returns (at: nat)
      requires from <= to
      ensures at == to
    {
      at := from;
      while at < to
        invariant from <= at <= to
      {
        at := at + 1;
      }
    }

    /** Copies and inserts from the left, one block at a time. */
    method Build(es: seq<Replacement>) returns (output: seq<Block>)
      requires Ordered(es, |blocks|)
      ensures output == Spliced(blocks, es)
    {
      output := [];
      var at: nat, k: nat := 0, 0;
      ForwardIsRightToLeft(blocks, es);
      while k < |es|
        invariant 0 <= k <= |es| && WalkedTo(blocks, es, k, at)
        invariant output + Remaining(blocks, es, k, at) == Spliced(blocks, es)
      {
        ghost var rest := Remaining(blocks, es, k + 1, es[k].end);
        Regroup(output, blocks[at..es[k].start], es[k].with_, rest);
        output, at := CopyTo(output, at, es[k].start);
        at := SkipTo(at, es[k].end);
        output := output + es[k].with_;
        k := k + 1;
      }
      output := output + blocks[at..];
    }
  }

  /** What is still to be visited, in three parts. */
  lemma UnvisitedParts(blocks: seq<Block>, es: seq<Replacement>, k: nat, at: nat, appended: seq<Block>)
    requires Ordered(es, |blocks|) && k < |es| && WalkedTo(blocks, es, k, at)
    ensures Ids(Remaining(blocks, es, k, at) + appended) ==
            Ids(blocks[at..es[k].start]) + (Ids(es[k].with_) + Ids(Remaining(blocks, es, k + 1, es[k].end) + appended))
  {
    var copied, inserted, rest := blocks[at..es[k].start], es[k].with_, Remaining(blocks, es, k + 1, es[k].end);
    assert copied + inserted + rest + appended == copied + (inserted + (rest + appended));
    IdsConcat(copied, inserted + (rest + appended));
    IdsConcat(inserted, rest + appended);
  }

  function Lookup(blocks: seq<Block>, id: BlockId): (found: Option<Block>)
    ensures found.Some? ==> found.value in blocks && found.value.id == id
    ensures found.None? ==> forall b :: b in blocks ==> b.id != id
  {
    if blocks == [] then None
    else if blocks[0].id == id then Some(blocks[0]) else Lookup(blocks[1..], id)
  }

  /** With unique ids, one lookup decides whether material matches. */
  lemma LookupDecides(blocks: seq<Block>, incoming: Block)
    requires UniqueIds(blocks)
    ensures Mismatched(blocks, incoming) <==>
            Lookup(blocks, incoming.id).Some? && Lookup(blocks, incoming.id).value != incoming
  {
    var found := Lookup(blocks, incoming.id);
    if found.Some? {
      var i :| 0 <= i < |blocks| && blocks[i] == found.value;
      if Mismatched(blocks, incoming) {
        var k :| 0 <= k < |blocks| && blocks[k].id == incoming.id && blocks[k] != incoming;
        assert Ids(blocks)[i] == Ids(blocks)[k];
      }
    }
  }

  lemma {:induction false} MismatchStays(originals: seq<Block>, es: seq<Replacement>, k: nat, appended: seq<Block>)
    requires k <= |es| && FirstMismatch(originals, Inserted(es[..k])).Some?
    ensures FirstMismatch(originals, Inserted(es) + appended) == FirstMismatch(originals, Inserted(es[..k]))
    decreases |es| - k
  {
    if k == |es| {
      assert es[..k] == es;
      FirstMismatchConcat(originals, Inserted(es), appended);
    } else {
      assert es[..k + 1][..k] == es[..k];
      FirstMismatchConcat(originals, Inserted(es[..k]), es[k].with_);
      MismatchStays(originals, es, k + 1, appended);
    }
  }

  /** The rest of the original and the appended blocks. */
  method CheckTail(ids: set<BlockId>, ghost visited: seq<BlockId>, rest: seq<Block>, appended: seq<Block>)
    returns (repeat: Option<BlockId>)
    requires Met(ids, visited)
    ensures repeat == FirstRepeat(visited + Ids(rest + appended))
  {
    var all;
    IdsConcat(rest, appended);
    assert visited + Ids(rest + appended) == visited + Ids(rest) + Ids(appended);
    all, repeat := Meet(ids, visited, rest);
    if repeat.Some? {
      RepeatStays(visited + Ids(rest), Ids(appended));
      return;
    }
    all, repeat := Meet(all, visited + Ids(rest), appended);
    if repeat.None? {
      FirstRepeatExactly(visited + Ids(rest) + Ids(appended));
    }
  }

  lemma NoReplacements(blocks: seq<Block>, appended: seq<Block>)
    ensures Effective([]) == [] && Inserted([]) + appended == appended
    ensures FirstInvalid([], |blocks|, 0) == None && Ordered([], |blocks|) && Rebuilt(blocks, [], appended) == blocks + appended
  {
    assert EffectiveIndices([]) == [];
  }

  lemma AppendIsChecked(blocks: seq<Block>, appended: seq<Block>)
    ensures Ordered([], |blocks|) && EditResult(blocks, [], appended) == Checked(blocks, [], appended)
  {
    NoReplacements(blocks, appended);
  }

  lemma {:induction false} AppendUnique(blocks: seq<Block>, appended: seq<Block>)
    ensures FirstRepeat(Ids(blocks + appended)).None? <==> UniqueIds(blocks + appended)
    ensures blocks == [] ==> FirstMismatch(blocks, appended).None?
  {
    FirstRepeatExactly(Ids(blocks + appended));
    FirstMismatchExactly(blocks, appended);
  }

  /** A plain append. */
  lemma {:induction false} AppendOutcome(blocks: seq<Block>, appended: seq<Block>)
    ensures EditResult(blocks, [], appended) ==
            if FirstMismatch(blocks, appended).Some? then Err(BlockIdentityMismatch(FirstMismatch(blocks, appended).value))
            else if FirstRepeat(Ids(blocks + appended)).Some? then
              Err(DuplicateBlockId(FirstRepeat(Ids(blocks + appended)).value))
            else Ok(blocks + appended)
    ensures blocks == [] ==> FirstMismatch(blocks, appended).None?
    ensures FirstRepeat(Ids(blocks + appended)).None? <==> UniqueIds(blocks + appended)
  {
    AppendIsChecked(blocks, appended);
    NoReplacements(blocks, appended);
    AppendUnique(blocks, appended);
  }

  lemma {:induction false} ImportOutcome(imported: seq<Block>)
    ensures EditResult([], [], imported).Ok? <==> UniqueIds(imported)
    ensures EditResult([], [], imported).Ok? ==> EditResult([], [], imported).value == imported
  {
    AppendOutcome([], imported);
    NoneFirst(imported);
  }
}
