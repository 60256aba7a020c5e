/** How a turn makes a context longer, and what that does to its open calls. */
module FrameGrowth {
  import opened Wrappers
  import opened Blocks
  import opened ToolSets
  import opened ToolHistory
  import opened ToolBatches
  import opened Conversion

  function OutcomeBlocks(results: seq<Recorded>): (blocks: seq<Block>)
    ensures |blocks| == |results|
    ensures forall i :: 0 <= i < |results| ==> blocks[i] == Block(results[i].id, Outcome(results[i].payload), NoMeta)
  {
    seq(|results|, i requires 0 <= i < |results| => Block(results[i].id, Outcome(results[i].payload), NoMeta))
  }

  datatype AppendError = MissingDeclaration(id: BlockId) | AlreadyCompleted(id: BlockId) | DuplicateResult(id: BlockId)

  /** The results answer declared calls nobody answered yet, each once. */
  predicate Appendable(blocks: seq<Block>, results: seq<Recorded>) {
    && (forall i :: 0 <= i < |results| ==> IsDeclaration(blocks, results[i].payload.callBlockId)
                                           && !IsCompleted(blocks, results[i].payload.callBlockId))
    && (forall i, j :: 0 <= i < j < |results| ==> results[i].payload.callBlockId != results[j].payload.callBlockId)
  }

  /** What the error says is true of the material. */
  ghost predicate Explains(blocks: seq<Block>, results: seq<Recorded>, e: AppendError) {
    match e
    case MissingDeclaration(id) =>
      !IsDeclaration(blocks, id) && exists i :: 0 <= i < |results| && results[i].payload.callBlockId == id
    case AlreadyCompleted(id) =>
      IsCompleted(blocks, id) && exists i :: 0 <= i < |results| && results[i].payload.callBlockId == id
    case DuplicateResult(id) =>
      exists i, j :: 0 <= i < j < |results| && results[i].payload.callBlockId == id && results[j].payload.callBlockId == id
  }

  /** Checks a result append: accepts exactly what can be appended. */
  method ValidateAppend(blocks: seq<Block>, results: seq<Recorded>) returns (refused: Option<AppendError>)
    ensures refused.None? <==> Appendable(blocks, results)
    ensures refused.Some? ==> Explains(blocks, results, refused.value)
  {
    var declarations := set i | 0 <= i < |blocks| && blocks[i].content.Declaration? :: blocks[i].id;
    var completed := set i | 0 <= i < |blocks| && blocks[i].content.Outcome? :: blocks[i].content.result.callBlockId;
    var batch, k := {}, 0;
    while k < |results|
      invariant 0 <= k <= |results|
      invariant batch == set i | 0 <= i < k :: results[i].payload.callBlockId
      invariant Appendable(blocks, results[..k])
    {
      var id := results[k].payload.callBlockId;
      if id !in declarations {
        assert !IsDeclaration(blocks, id);
        return Some(MissingDeclaration(id));
      }
      if id in completed {
        assert IsCompleted(blocks, id);
        return Some(AlreadyCompleted(id));
      }
      if id in batch {
        var i :| 0 <= i < k && results[i].payload.callBlockId == id;
        return Some(DuplicateResult(id));
      }
      batch := batch + {id};
      k := k + 1;
    }
    assert results[..k] == results;
    refused := None;
  }

  // -- order ------------------------------------------------------------------------------------

  lemma InOrderMore(n: Names, past: seq<Block>, b: Block)
    requires InOrder(n, past) && MayFollow(n, past, b)
    ensures InOrder(n, past + [b])
  {
    var all := past + [b];
    forall k | 0 <= k < |all| ensures MayFollow(n, all[..k], all[k]) {
      if k < |past| {
        assert all[..k] == past[..k];
      } else {
        assert all[..k] == past;
      }
    }
  }

  /** Wire ids of the new calls: not empty, and used neither before nor twice. */
  predicate FreshWireIds(n: Names, past: seq<Block>, added: seq<Block>) {
    forall i :: 0 <= i < |added| && added[i].content.Declaration? ==>
                  WireId(n, added[i]) != "" && !HasWireId(n, past + added[..i], WireId(n, added[i]))
  }

  /** A model's blocks fit in anywhere, if their ids are new. */
  lemma {:induction false} ModelBlocksFollow(n: Names, past: seq<Block>, added: seq<Block>)
    requires InOrder(n, past) && FreshWireIds(n, past, added) && UniqueIds(past + added)
    requires forall i :: 0 <= i < |added| ==> FromModel(n.blank, added[i])
    ensures InOrder(n, past + added)
    decreases |added|
  {
    if added == [] {
      assert past + added == past;
    } else {
      var early, last := added[..|added| - 1], added[|added| - 1];
      FreshPrefix(n, past, added);
      ModelBlocksFollow(n, past, early);
      IdIsNew(past + early, last, past + added);
      assert past + added == past + early + [last];
      InOrderMore(n, past + early, last);
    }
  }

  lemma FreshPrefix(n: Names, past: seq<Block>, added: seq<Block>)
    requires added != [] && FreshWireIds(n, past, added) && UniqueIds(past + added)
    ensures var early := added[..|added| - 1]; FreshWireIds(n, past, early) && UniqueIds(past + early)
  {
    var early := added[..|added| - 1];
    forall i | 0 <= i < |early| && early[i].content.Declaration?
      ensures WireId(n, early[i]) != "" && !HasWireId(n, past + early[..i], WireId(n, early[i]))
    {
      assert early[..i] == added[..i] && early[i] == added[i];
    }
    forall i, j | 0 <= i < j < |past + early| ensures Ids(past + early)[i] != Ids(past + early)[j] {
      assert Ids(past + added)[i] == Ids(past + early)[i] && Ids(past + added)[j] == Ids(past + early)[j];
    }
  }

  lemma IdIsNew(past: seq<Block>, last: Block, all: seq<Block>)
    requires UniqueIds(all) && all == past + [last]
    ensures !IsDeclaration(past, last.id)
  {
    forall i | 0 <= i < |past| ensures past[i].id != last.id {
      assert Ids(all)[i] == past[i].id && Ids(all)[|past|] == last.id;
    }
  }

  /** Results that can be appended keep the order. */
  lemma {:induction false} OutcomesFollow(n: Names, past: seq<Block>, results: seq<Recorded>)
    requires InOrder(n, past) && Appendable(past, results)
    ensures InOrder(n, past + OutcomeBlocks(results))
    decreases |results|
  {
    if results == [] {
      assert past + OutcomeBlocks(results) == past;
    } else {
      var early, last := results[..|results| - 1], results[|results| - 1];
      var added := OutcomeBlocks(early);
      OutcomesFollow(n, past, early);
      assert OutcomeBlocks(results) == added + [Block(last.id, Outcome(last.payload), NoMeta)];
      OutcomesDeclareNothing(past, early, last.payload.callBlockId);
      OutcomesComplete(past, early, last.payload.callBlockId);
      InOrderMore(n, past + added, Block(last.id, Outcome(last.payload), NoMeta));
      assert past + OutcomeBlocks(results) == past + added + [Block(last.id, Outcome(last.payload), NoMeta)];
    }
  }

  lemma OutcomesDeclareNothing(past: seq<Block>, results: seq<Recorded>, id: BlockId)
    ensures IsDeclaration(past + OutcomeBlocks(results), id) <==> IsDeclaration(past, id)
  {
    var all := past + OutcomeBlocks(results);
    if IsDeclaration(past, id) {
      var i :| 0 <= i < |past| && past[i].content.Declaration? && past[i].id == id;
      assert all[i] == past[i];
    }
  }

  predicate AnswersCall(results: seq<Recorded>, id: BlockId) {
    exists i :: 0 <= i < |results| && results[i].payload.callBlockId == id
  }

  lemma OutcomesComplete(past: seq<Block>, results: seq<Recorded>, id: BlockId)
    ensures IsCompleted(past + OutcomeBlocks(results), id) <==> IsCompleted(past, id) || AnswersCall(results, id)
  {
    var added := OutcomeBlocks(results);
    var all := past + added;
    if IsCompleted(past, id) {
      var i :| 0 <= i < |past| && past[i].content.Outcome? && past[i].content.result.callBlockId == id;
      assert all[i] == past[i];
    }
    if i :| 0 <= i < |results| && results[i].payload.callBlockId == id {
      assert all[|past| + i] == added[i];
    }
    if IsCompleted(all, id) {
      var i :| 0 <= i < |all| && all[i].content.Outcome? && all[i].content.result.callBlockId == id;
      if i >= |past| {
        assert all[i] == added[i - |past|];
      }
    }
  }

  // -- answered exactly once ------------------------------------------------------------------

  predicate AnsweredOnce(blocks: seq<Block>, id: BlockId) {
    exists k :: 0 <= k < |blocks| && OnlyAnswer(blocks, id, k)
  }

  predicate OnlyAnswer(blocks: seq<Block>, id: BlockId, k: nat)
    requires k < |blocks|
  {
    forall i :: 0 <= i < |blocks| ==> (Answering(blocks[i], id) <==> i == k)
  }

  predicate Answering(b: Block, id: BlockId) {
    b.content.Outcome? && b.content.result.callBlockId == id
  }

  lemma OnceIsCompleted(blocks: seq<Block>, id: BlockId)
    requires AnsweredOnce(blocks, id)
    ensures IsCompleted(blocks, id)
  {
    var k :| 0 <= k < |blocks| && OnlyAnswer(blocks, id, k);
    assert Answering(blocks[k], id);
  }

  /** Blocks that answer nothing change nothing. */
  lemma OnceStays(blocks: seq<Block>, added: seq<Block>, id: BlockId)
    requires AnsweredOnce(blocks, id) && forall i :: 0 <= i < |added| ==> !Answering(added[i], id)
    ensures AnsweredOnce(blocks + added, id)
  {
    var k :| 0 <= k < |blocks| && OnlyAnswer(blocks, id, k);
    assert OnlyAnswer(blocks + added, id, k);
  }

  lemma OnceNow(blocks: seq<Block>, results: seq<Recorded>, id: BlockId)
    requires Appendable(blocks, results) && AnswersCall(results, id)
    ensures AnsweredOnce(blocks + OutcomeBlocks(results), id)
  {
    var all := blocks + OutcomeBlocks(results);
    var k :| 0 <= k < |results| && results[k].payload.callBlockId == id;
    forall i | 0 <= i < |all| ensures Answering(all[i], id) <==> i == |blocks| + k {
      if i < |blocks| {
        assert all[i] == blocks[i];
        assert !IsCompleted(blocks, id);
      } else {
        assert all[i] == OutcomeBlocks(results)[i - |blocks|];
      }
    }
    assert OnlyAnswer(all, id, |blocks| + k);
  }

  lemma OnceKept(blocks: seq<Block>, results: seq<Recorded>, id: BlockId)
    requires Appendable(blocks, results) && AnsweredOnce(blocks, id)
    ensures AnsweredOnce(blocks + OutcomeBlocks(results), id)
  {
    OnceIsCompleted(blocks, id);
    var added := OutcomeBlocks(results);
    forall i | 0 <= i < |added| ensures !Answering(added[i], id) {
      assert results[i].payload.callBlockId != id;
    }
    OnceStays(blocks, added, id);
  }

  /** Every call declared at or after `from` has exactly one result. */
  predicate Accounted(blocks: seq<Block>, from: nat) {
    forall i :: from <= i < |blocks| && blocks[i].content.Declaration? ==> AnsweredOnce(blocks, blocks[i].id)
  }

  /** Blocks that declare nothing and answer nothing keep the accounts. */
  lemma AccountedSilent(blocks: seq<Block>, added: seq<Block>, from: nat)
    requires Accounted(blocks, from) && from <= |blocks|
    requires forall i :: 0 <= i < |added| ==> !added[i].content.Declaration? && !added[i].content.Outcome?
    ensures Accounted(blocks + added, from)
  {
    var all := blocks + added;
    forall i | from <= i < |all| && all[i].content.Declaration? ensures AnsweredOnce(all, all[i].id) {
      assert i < |blocks|;
      OnceStays(blocks, added, blocks[i].id);
    }
  }

  predicate Declares(added: seq<Block>, id: BlockId) {
    exists i :: 0 <= i < |added| && added[i].content.Declaration? && added[i].id == id
  }

  /** A round's declarations, answered by results for exactly them. */
  lemma AccountedRound(blocks: seq<Block>, declared: seq<Block>, results: seq<Recorded>, from: nat)
    requires Accounted(blocks, from) && from <= |blocks|
    requires forall i :: 0 <= i < |declared| ==> !declared[i].content.Outcome?
    requires Appendable(blocks + declared, results)
    requires forall id :: Declares(declared, id) ==> AnswersCall(results, id)
    ensures Accounted(blocks + declared + OutcomeBlocks(results), from)
  {
    var middle := blocks + declared;
    var all := middle + OutcomeBlocks(results);
    forall i | from <= i < |all| && all[i].content.Declaration? ensures AnsweredOnce(all, all[i].id) {
      assert i < |middle| && all[i] == middle[i];
      if i < |blocks| {
        OnceStays(blocks, declared, blocks[i].id);
        OnceKept(middle, results, blocks[i].id);
      } else {
        assert middle[i] == declared[i - |blocks|];
        assert Declares(declared, all[i].id);
        OnceNow(middle, results, all[i].id);
      }
    }
  }

  lemma SilentComplete(blocks: seq<Block>, added: seq<Block>, id: BlockId)
    requires forall i :: 0 <= i < |added| ==> !added[i].content.Outcome?
    ensures IsCompleted(blocks + added, id) <==> IsCompleted(blocks, id)
  {
    var all := blocks + added;
    if IsCompleted(blocks, id) {
      var i :| 0 <= i < |blocks| && blocks[i].content.Outcome? && blocks[i].content.result.callBlockId == id;
      assert all[i] == blocks[i];
    }
  }

  /** One result for each call of the round, and for nothing else. */
  ghost predicate AnswersEach(declared: seq<Block>, results: seq<Recorded>) {
    && (forall id :: AnswersCall(results, id) <==> Declares(declared, id))
    && forall i, j :: 0 <= i < j < |results| ==> results[i].payload.callBlockId != results[j].payload.callBlockId
  }

  /** A round's results can be appended exactly when nothing before the round answers one of its calls. */
  lemma RoundAppendsExactly(frame: seq<Block>, declared: seq<Block>, results: seq<Recorded>)
    requires AnswersEach(declared, results) && forall i :: 0 <= i < |declared| ==> !declared[i].content.Outcome?
    ensures Appendable(frame + declared, results) <==> forall id :: Declares(declared, id) ==> !IsCompleted(frame, id)
  {
    var all := frame + declared;
    forall i | 0 <= i < |results| ensures IsDeclaration(all, results[i].payload.callBlockId) {
      assert AnswersCall(results, results[i].payload.callBlockId);
      var j :| 0 <= j < |declared| && declared[j].content.Declaration? && declared[j].id == results[i].payload.callBlockId;
      assert all[|frame| + j] == declared[j];
    }
    forall id | Declares(declared, id) ensures IsCompleted(all, id) <==> IsCompleted(frame, id) {
      SilentComplete(frame, declared, id);
    }
    forall i | 0 <= i < |results| ensures Declares(declared, results[i].payload.callBlockId) {
      assert AnswersCall(results, results[i].payload.callBlockId);
    }
  }

  /** A result already in the context for an id that a call then gets keeps the call's own result out. */
  lemma StrayResultRefuses(stray: Block, call: Block, results: seq<Recorded>)
    requires stray.content.Outcome? && call.content.Declaration? && stray.content.result.callBlockId == call.id
    requires AnswersCall(results, call.id)
    ensures !Appendable([stray, call], results)
  {
    var i :| 0 <= i < |results| && results[i].payload.callBlockId == call.id;
    assert [stray, call][0] == stray && IsCompleted([stray, call], call.id);
  }

  // -- open calls ---------------------------------------------------------------------------

  /** After the results of a round nothing is open that was not open before it. */
  lemma ClosedRound(blocks: seq<Block>, declared: seq<Block>, results: seq<Recorded>)
    requires NothingOpen(blocks)
    requires forall id :: Declares(declared, id) ==> AnswersCall(results, id)
    ensures NothingOpen(blocks + declared + OutcomeBlocks(results))
  {
    var middle := blocks + declared;
    var all := middle + OutcomeBlocks(results);
    forall i | 0 <= i < |all| && all[i].content.Declaration? ensures IsCompleted(all, all[i].id) {
      assert i < |middle| && all[i] == middle[i];
      OutcomesComplete(middle, results, all[i].id);
      if i < |blocks| {
        var k :| 0 <= k < |blocks| && blocks[k].content.Outcome? && blocks[k].content.result.callBlockId == blocks[i].id;
        assert middle[k] == blocks[k];
      } else {
        assert Declares(declared, all[i].id);
      }
    }
  }

  /** A change of offered tools between exchanges keeps a frame sendable. */
  lemma ChangeKeepsSendable(n: Names, blocks: seq<Block>, b: Block)
    requires Sendable(n, blocks) && b.content.ToolsChanged? && SoundAdditions(b.content.change.added)
    ensures Sendable(n, blocks + [b])
  {
    InOrderMore(n, blocks, b);
    var all := blocks + [b];
    forall i | 0 <= i < |all| && all[i].content.Declaration? ensures IsCompleted(all, all[i].id) {
      assert all[i] == blocks[i];
      CompletedAppended(blocks, b, all[i].id);
    }
  }

  /** A whole round keeps a frame sendable. */
  lemma RoundKeepsSendable(n: Names, blocks: seq<Block>, declared: seq<Block>, results: seq<Recorded>)
    requires Sendable(n, blocks) && FreshWireIds(n, blocks, declared) && UniqueIds(blocks + declared)
    requires forall i :: 0 <= i < |declared| ==> FromModel(n.blank, declared[i])
    requires Appendable(blocks + declared, results)
    requires forall id :: Declares(declared, id) ==> AnswersCall(results, id)
    ensures Sendable(n, blocks + declared + OutcomeBlocks(results))
  {
    ModelBlocksFollow(n, blocks, declared);
    OutcomesFollow(n, blocks + declared, results);
    ClosedRound(blocks, declared, results);
  }

  /** The difference to a set of named tools adds each of them once. */
  lemma DifferenceIsSound(previous: Tools, current: Tools)
    requires UniqueNames(current) && forall i :: 0 <= i < |current| ==> current[i].name != ""
    ensures SoundAdditions(Between(previous, current).added)
  {
    DifferingUnique(current, previous);
    var added := Differing(current, previous);
    forall i | 0 <= i < |added| ensures added[i].name != "" {
      assert added[i] in added && added[i] in current;
    }
  }

  lemma {:induction false} DifferingUnique(of: Tools, against: Tools)
    requires UniqueNames(of)
    ensures UniqueNames(Differing(of, against))
    decreases |of|
  {
    if of != [] {
      var past, last := of[..|of| - 1], of[|of| - 1];
      DifferingUnique(past, against);
      var kept := Differing(past, against);
      forall i | 0 <= i < |kept| ensures kept[i].name != last.name {
        assert kept[i] in kept && kept[i] in past;
        var j :| 0 <= j < |past| && past[j] == kept[i];
        assert of[j] == kept[i];
      }
    }
  }
}
