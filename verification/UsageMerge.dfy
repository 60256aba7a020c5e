/** What merging a usage report comes to: each count on its own, the names written out. */
module UsageMerge {
  import opened Wrappers
  import opened Json
  import opened StreamCommon

  predicate IsCount(key: string) {
    || key == "input_tokens" || key == "output_tokens" || key == "prompt_tokens" || key == "completion_tokens"
    || key == "cache_read_input_tokens" || key == "cache_creation_input_tokens"
    || key == "prompt_cache_hit_tokens" || key == "reasoning_tokens"
  }

  predicate IsDetail(key: string) {
    || key == "prompt_tokens_details" || key == "completion_tokens_details"
    || key == "input_tokens_details" || key == "output_tokens_details"
  }

  predicate IsDetailCount(key: string) {
    key == "cached_tokens" || key == "cache_write_tokens" || key == "reasoning_tokens" || key == "thinking_tokens"
  }

  predicate Unsigned(v: Json) {
    v.Int? && 0 <= v.n <= 0xFFFF_FFFF_FFFF_FFFF
  }

  /** The report says something under this key: the member is there and is not null. */
  predicate Reports(update: Json, key: string) {
    update.Obj? && key in update.fields && update.fields[key] != Null
  }

  /** A key's value once the report is in: what it says, or what was there. */
  function Later(target: Fields, update: Json, key: string): Option<Json> {
    if Reports(update, key) then Some(update.fields[key]) else Get(Obj(target), key)
  }

  /** Every detail count reported is a count. */
  ghost predicate GoodDetail(v: Json) {
    v.Obj? && forall key :: IsDetailCount(key) && Reports(v, key) ==> Unsigned(v.fields[key])
  }

  /** A report the merge accepts. */
  ghost predicate GoodReport(update: Json) {
    && update.Obj?
    && (forall key :: IsCount(key) && Reports(update, key) ==> Unsigned(update.fields[key]))
    && (forall key :: IsDetail(key) && Reports(update, key) ==> GoodDetail(update.fields[key]))
  }

  /** The detail object holds the later of its counts, and whatever else it held. */
  ghost predicate DetailMerged(was: Fields, update: Json, now: Option<Json>) {
    now.Some? && now.value.Obj? &&
    forall key :: Get(now.value, key) == if IsDetailCount(key) then Later(was, update, key) else Get(Obj(was), key)
  }

  /** Each count is the later one, each reported detail object is merged, and nothing else changes. */
  ghost predicate Merged(target: Fields, update: Json, result: Fields) {
    forall key ::
      if IsCount(key) then Get(Obj(result), key) == Later(target, update, key)
      else if IsDetail(key) && Reports(update, key) then
        DetailMerged(DetailOf(target, key), update.fields[key], Get(Obj(result), key))
      else Get(Obj(result), key) == Get(Obj(target), key)
  }

  // -- counts -----------------------------------------------------------------------------------

  lemma {:induction false} CountsMerge(target: Fields, update: Json, keys: seq<string>)
    ensures MergeCounts(target, update, keys).Ok? <==>
              forall key :: key in keys && Reports(update, key) ==> Unsigned(update.fields[key])
    ensures MergeCounts(target, update, keys).Err? ==> MergeCounts(target, update, keys).error == Undecodable
    ensures MergeCounts(target, update, keys).Ok? ==>
              forall key :: Get(Obj(MergeCounts(target, update, keys).value), key) ==
                            if key in keys then Later(target, update, key) else Get(Obj(target), key)
    decreases |keys|
  {
    if keys != [] {
      var first, rest := keys[0], keys[1..];
      assert forall key :: key in keys <==> key == first || key in rest;
      if Reports(update, first) {
        assert GetSome(update, first) == Some(update.fields[first]);
        if Unsigned(update.fields[first]) {
          CountsMerge(target[first := update.fields[first]], update, rest);
        }
      } else {
        CountsMerge(target, update, rest);
      }
    }
  }

  // -- details ------------------------------------------------------------------------------------

  lemma DetailCountsNamed(key: string)
    ensures key in DETAIL_COUNTS <==> IsDetailCount(key)
  {
  }

  lemma {:induction false} DetailMerges(was: Fields, update: Json)
    requires update.Obj?
    ensures MergeCounts(was, update, DETAIL_COUNTS).Ok? <==> GoodDetail(update)
    ensures MergeCounts(was, update, DETAIL_COUNTS).Err? ==> MergeCounts(was, update, DETAIL_COUNTS).error == Undecodable
    ensures MergeCounts(was, update, DETAIL_COUNTS).Ok? ==>
              DetailMerged(was, update, Some(Obj(MergeCounts(was, update, DETAIL_COUNTS).value)))
  {
    CountsMerge(was, update, DETAIL_COUNTS);
    forall key ensures key in DETAIL_COUNTS <==> IsDetailCount(key) {
      DetailCountsNamed(key);
    }
  }

  /** What merging the detail objects of `keys` comes to. */
  ghost predicate DetailsMerged(target: Fields, update: Json, keys: seq<string>, result: Fields) {
    forall key ::
      if key in keys && Reports(update, key) then
        DetailMerged(DetailOf(target, key), update.fields[key], Get(Obj(result), key))
      else Get(Obj(result), key) == Get(Obj(target), key)
  }

  lemma {:induction false} DetailsMerge(target: Fields, update: Json, keys: seq<string>)
    requires Distinct(keys)
    ensures MergeDetails(target, update, keys).Ok? <==>
              forall key :: key in keys && Reports(update, key) ==> GoodDetail(update.fields[key])
    ensures MergeDetails(target, update, keys).Err? ==> MergeDetails(target, update, keys).error == Undecodable
    ensures MergeDetails(target, update, keys).Ok? ==>
              DetailsMerged(target, update, keys, MergeDetails(target, update, keys).value)
    decreases |keys|
  {
    if keys != [] {
      var first, rest := keys[0], keys[1..];
      assert forall key :: key in keys <==> key == first || key in rest;
      assert first !in rest;
      if !Reports(update, first) {
        DetailsMerge(target, update, rest);
      } else {
        var detail := update.fields[first];
        assert GetSome(update, first) == Some(detail);
        if detail.Obj? {
          DetailMerges(DetailOf(target, first), detail);
          var merged := MergeCounts(DetailOf(target, first), detail, DETAIL_COUNTS);
          if merged.Ok? {
            DetailsMerge(target[first := Obj(merged.value)], update, rest);
          }
        }
      }
    }
  }

  // -- a whole report -----------------------------------------------------------------------------------

  lemma CountsNamed(key: string)
    ensures key in COUNTS <==> IsCount(key)
    ensures key in DETAILS <==> IsDetail(key)
    ensures !(IsCount(key) && IsDetail(key))
  {
  }

  lemma DetailsDiffer()
    ensures Distinct(DETAILS)
  {
  }

  /** Merging the counts leaves the detail objects as they were. */
  lemma {:induction false} DetailsWait(target: Fields, update: Json, counted: Fields, key: string)
    requires Get(Obj(counted), key) == if key in COUNTS then Later(target, update, key) else Get(Obj(target), key)
    ensures IsDetail(key) ==> DetailOf(counted, key) == DetailOf(target, key)
  {
    CountsNamed(key);
    assert IsDetail(key) ==> Get(Obj(counted), key) == Get(Obj(target), key);
  }

  /** What one key comes to when the counts are merged first and the details then. */
  lemma {:induction false} KeyMerged(target: Fields, update: Json, counted: Fields, result: Fields, key: string)
    requires Get(Obj(counted), key) == if key in COUNTS then Later(target, update, key) else Get(Obj(target), key)
    requires if key in DETAILS && Reports(update, key) then
               DetailMerged(DetailOf(counted, key), update.fields[key], Get(Obj(result), key))
             else Get(Obj(result), key) == Get(Obj(counted), key)
    ensures if IsCount(key) then Get(Obj(result), key) == Later(target, update, key)
            else if IsDetail(key) && Reports(update, key) then
              DetailMerged(DetailOf(target, key), update.fields[key], Get(Obj(result), key))
            else Get(Obj(result), key) == Get(Obj(target), key)
  {
    CountsNamed(key);
    DetailsWait(target, update, counted, key);
  }

  lemma {:induction false} AllKeysMerged(target: Fields, update: Json, counted: Fields, result: Fields)
    requires forall key :: Get(Obj(counted), key) == if key in COUNTS then Later(target, update, key) else Get(Obj(target), key)
    requires DetailsMerged(counted, update, DETAILS, result)
    ensures Merged(target, update, result)
  {
    forall key
      ensures if IsCount(key) then Get(Obj(result), key) == Later(target, update, key)
              else if IsDetail(key) && Reports(update, key) then
                DetailMerged(DetailOf(target, key), update.fields[key], Get(Obj(result), key))
              else Get(Obj(result), key) == Get(Obj(target), key)
    {
      KeyMerged(target, update, counted, result, key);
    }
  }

  lemma {:induction false} ReportGood(update: Json)
    ensures GoodReport(update) <==>
              && update.Obj?
              && (forall key :: key in COUNTS && Reports(update, key) ==> Unsigned(update.fields[key]))
              && (forall key :: key in DETAILS && Reports(update, key) ==> GoodDetail(update.fields[key]))
  {
    forall key ensures (key in COUNTS <==> IsCount(key)) && (key in DETAILS <==> IsDetail(key)) {
      CountsNamed(key);
    }
  }

  /** A report is accepted exactly when all it says is well formed; then each count is the later one. */
  lemma {:induction false} MergedExactly(target: Fields, update: Json)
    ensures MergeUsage(target, update).Ok? <==> GoodReport(update)
    ensures MergeUsage(target, update).Err? ==> MergeUsage(target, update).error == Undecodable
    ensures MergeUsage(target, update).Ok? ==> Merged(target, update, MergeUsage(target, update).value)
  {
    ReportGood(update);
    if update.Obj? {
      CountsMerge(target, update, COUNTS);
      var counted := MergeCounts(target, update, COUNTS);
      if counted.Ok? {
        DetailsDiffer();
        DetailsMerge(counted.value, update, DETAILS);
        var merged := MergeDetails(counted.value, update, DETAILS);
        if merged.Ok? {
          AllKeysMerged(target, update, counted.value, merged.value);
        }
      }
    }
  }
}
