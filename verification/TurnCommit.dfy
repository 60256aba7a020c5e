/** The three appends of a turn: a tool change, a model's answer, the results of a batch. */
module TurnCommit {
  import opened Wrappers
  import opened Model
  import opened Blocks
  import opened ToolSets
  import opened ToolHistory
  import opened ToolBatches
  import opened Conversion
  import opened FrameGrowth
  import opened EditProof
  import Context

  datatype CommitError =
    | ConversionRefused(conversion: ConversionError)
    | EditRefused(edit: Context.EditFailure)
    | ResultsRefused(append: AppendError)

  /** No generated id that is still to come is named by a result already there. */
  ghost predicate NoStrayResults(ids: IdSource, blocks: seq<Block>)
    reads ids
  {
    forall k :: k >= ids.next ==> !IsCompleted(blocks, ids.generate(k))
  }

  /** The context would not take these blocks, for the reason given. */
  predicate Refused(blocks: seq<Block>, failure: Context.EditFailure) {
    failure.replacements == [] && EditResult(blocks, [], failure.appended) == Err(failure.reason)
  }

  /** An append through the context: all or nothing. */
  method Append(context: Context.Context, added: seq<Block>) returns (refused: Option<Context.EditFailure>)
    requires context.Valid()
    modifies context
    ensures context.Valid()
    ensures refused.None? ==> context.blocks == old(context.blocks) + added
    ensures refused.Some? ==> && context.blocks == old(context.blocks) && refused.value.appended == added
                              && Refused(context.blocks, refused.value)
  {
    Context.AppendOutcome(context.blocks, added);
    var applied := context.Apply([], added);
    refused := if applied.Err? then Some(applied.error) else None;
  }

  method FreshIds(ids: IdSource, count: nat) returns (drawn: seq<BlockId>)
    modifies ids
    ensures ids.next == old(ids.next) + count
    ensures drawn == Generated(ids, old(ids.next), count)
  {
    drawn := [];
    while |drawn| < count
      invariant |drawn| <= count && ids.next == old(ids.next) + |drawn|
      invariant drawn == Generated(ids, old(ids.next), |drawn|)
    {
      var id := ids.Fresh();
      drawn := drawn + [id];
    }
  }

  ghost function Generated(ids: IdSource, from: nat, count: nat): (drawn: seq<BlockId>)
    ensures |drawn| == count && forall i :: 0 <= i < count ==> drawn[i] == ids.generate(from + i)
  {
    seq(count, i requires 0 <= i < count => ids.generate(from + i))
  }

  function ChangeBlock(blocks: seq<Block>, surface: Tools, id: BlockId): Block {
    Block(id, ToolsChanged(Between(CurrentTools(blocks), surface)), NoMeta)
  }

  /** Nothing, or the one block that says how the surface differs from what the blocks offer. */
  ghost predicate ToolChange(blocks: seq<Block>, surface: Tools, added: seq<Block>) {
    added == [] || exists id :: added == [ChangeBlock(blocks, surface, id)]
  }

  /** The context would not take the change. */
  ghost predicate ChangeRefused(blocks: seq<Block>, surface: Tools, e: CommitError) {
    e.EditRefused? && Refused(blocks, e.edit) && exists id :: e.edit.appended == [ChangeBlock(blocks, surface, id)]
  }

  /** Records the difference between the offered and the bound tools, if there is one. */
  method CommitToolChange(context: Context.Context, ids: IdSource, surface: Tools)
    returns (refused: Option<CommitError>, ghost added: seq<Block>)
    requires context.Valid() && ids as object != context
    requires UniqueNames(surface)
    modifies context, ids
    ensures context.Valid() && ids.next >= old(ids.next)
    ensures context.blocks == old(context.blocks) + added && ToolChange(old(context.blocks), surface, added)
    ensures refused.None? ==> SameTools(CurrentTools(context.blocks), surface)
    ensures refused.Some? ==> added == [] && ChangeRefused(context.blocks, surface, refused.value)
  {
    added := [];
    assert context.blocks + [] == context.blocks;
    var offered := FoldTools(context.blocks);
    var change := Between(offered, surface);
    FoldKeepsUnique(ChangesOf(context.blocks), []);
    if IsEmpty(change) {
      EmptyIsSame(offered, surface);
      return None, [];
    }
    var id := ids.Fresh();
    var block := Block(id, ToolsChanged(change), NoMeta);
    assert block == ChangeBlock(context.blocks, surface, id);
    ChangeRecorded(context.blocks, block, surface);
    var failed := Append(context, [block]);
    if failed.Some? {
      return Some(EditRefused(failed.value)), [];
    }
    added := [block];
    refused := None;
  }

  function DeclaredCalls(blocks: seq<Block>): seq<Call> {
    if blocks == [] then []
    else
      var past, last := DeclaredCalls(blocks[..|blocks| - 1]), blocks[|blocks| - 1];
      if last.content.Declaration? then past + [Call(last.id, last.content.input, [])] else past
  }

  lemma {:induction false} CallsAreDeclared(blocks: seq<Block>, c: Call)
    requires c in DeclaredCalls(blocks)
    ensures Declares(blocks, c.callBlockId)
    decreases |blocks|
  {
    var past, last := blocks[..|blocks| - 1], blocks[|blocks| - 1];
    if c in DeclaredCalls(past) {
      CallsAreDeclared(past, c);
      var i :| 0 <= i < |past| && past[i].content.Declaration? && past[i].id == c.callBlockId;
      assert blocks[i] == past[i];
    } else {
      assert last.content.Declaration? && last.id == c.callBlockId;
    }
  }

  lemma {:induction false} DeclaredIsCalled(blocks: seq<Block>, k: nat)
    requires k < |blocks| && blocks[k].content.Declaration?
    ensures Call(blocks[k].id, blocks[k].content.input, []) in DeclaredCalls(blocks)
    decreases |blocks|
  {
    var past := blocks[..|blocks| - 1];
    if k < |past| {
      DeclaredIsCalled(past, k);
    }
  }

  /** The calls of a round are its declarations. */
  lemma DeclaredCallsAre(blocks: seq<Block>)
    ensures forall c :: c in DeclaredCalls(blocks) ==> Declares(blocks, c.callBlockId)
    ensures forall id :: Declares(blocks, id) ==>
              exists i :: 0 <= i < |DeclaredCalls(blocks)| && DeclaredCalls(blocks)[i].callBlockId == id
  {
    forall c | c in DeclaredCalls(blocks) ensures Declares(blocks, c.callBlockId) {
      CallsAreDeclared(blocks, c);
    }
    forall id | Declares(blocks, id)
      ensures exists i :: 0 <= i < |DeclaredCalls(blocks)| && DeclaredCalls(blocks)[i].callBlockId == id
    {
      var k :| 0 <= k < |blocks| && blocks[k].content.Declaration? && blocks[k].id == id;
      DeclaredIsCalled(blocks, k);
      var i :| 0 <= i < |DeclaredCalls(blocks)| && DeclaredCalls(blocks)[i] == Call(blocks[k].id, blocks[k].content.input, []);
      assert DeclaredCalls(blocks)[i].callBlockId == id;
    }
  }

  lemma {:induction false} DeclaredCallsDistinct(blocks: seq<Block>)
    requires UniqueIds(blocks)
    ensures Distinct(ToolBatches.CallIds(DeclaredCalls(blocks)))
    decreases |blocks|
  {
    if blocks != [] {
      var past, last := blocks[..|blocks| - 1], blocks[|blocks| - 1];
      assert forall i :: 0 <= i < |past| ==> Ids(past)[i] == Ids(blocks)[i];
      DeclaredCallsDistinct(past);
      DeclaredCallsAre(past);
      var calls := DeclaredCalls(past);
      forall i | 0 <= i < |calls| ensures calls[i].callBlockId != last.id {
        assert calls[i] in calls;
        var k :| 0 <= k < |past| && past[k].content.Declaration? && past[k].id == calls[i].callBlockId;
        assert Ids(blocks)[k] == past[k].id && Ids(blocks)[|past|] == last.id;
      }
      assert forall i :: 0 <= i < |calls| ==>
                           ToolBatches.CallIds(DeclaredCalls(blocks))[i] == ToolBatches.CallIds(calls)[i];
    }
  }

  function DeclaredIds(blocks: seq<Block>): set<BlockId> {
    set i | 0 <= i < |blocks| && blocks[i].content.Declaration? :: blocks[i].id
  }

  lemma OpenedMembers(blocks: seq<Block>)
    ensures Members(Opened(DeclaredCalls(blocks)).entries) == DeclaredIds(blocks)
  {
    DeclaredCallsAre(blocks);
    var calls := DeclaredCalls(blocks);
    var entries := Opened(calls).entries;
    forall id ensures id in Members(entries) <==> id in DeclaredIds(blocks) {
      if id in Members(entries) {
        var i :| 0 <= i < |entries| && entries[i].Id() == id;
        assert calls[i] in calls;
      }
      if id in DeclaredIds(blocks) {
        assert Declares(blocks, id);
        var i :| 0 <= i < |calls| && calls[i].callBlockId == id;
        assert entries[i].Id() == id;
      }
    }
  }

  lemma GeneratedUnique(ids: IdSource, from: nat, count: nat)
    requires ids.Valid()
    ensures Distinct(Generated(ids, from, count))
  {
  }

  /** The answer cannot be turned into blocks, or the context would not take them. */
  ghost predicate AnswerRefused(blocks: seq<Block>, blank: string -> bool, output: ModelOutput, e: CommitError) {
    match e
    case ConversionRefused(c) =>
      exists drawn :: |drawn| == BlockCount(output.items) && ToBlocks(blank, output.items, output.stopReason, drawn) == Err(c)
    case EditRefused(f) =>
      Refused(blocks, f) && ToBlocks(blank, output.items, output.stopReason, Ids(f.appended)) == Ok(f.appended)
    case ResultsRefused(_) => false
  }

  /** Turns an answer into blocks, opens its batch and appends it; on refusal nothing is appended. */
  method CommitModel(context: Context.Context, ids: IdSource, blank: string -> bool, output: ModelOutput)
    returns (result: Result<ToolBatch, CommitError>, ghost added: seq<Block>)
    requires context.Valid() && ids as object != context && ids.Valid()
    modifies context, ids
    ensures context.Valid() && ids.next >= old(ids.next)
    ensures result.Err? ==> && context.blocks == old(context.blocks) && added == []
                            && AnswerRefused(context.blocks, blank, output, result.error)
    ensures result.Ok? ==> ToBlocks(blank, output.items, output.stopReason, Ids(added)) == Ok(added)
    ensures result.Ok? ==> && fresh(result.value) && context.blocks == old(context.blocks) + added
                           && result.value.Current() == Opened(DeclaredCalls(added)) && Sound(Opened(DeclaredCalls(added)))
                           && (forall i :: 0 <= i < |added| ==> FromModel(blank, added[i]))
                           && Ids(added) == Generated(ids, old(ids.next), |added|) && ids.next == old(ids.next) + |added|
                           && (output.stopReason.EndTurn? ==> forall i :: 0 <= i < |added| ==> !added[i].content.Declaration?)
  {
    var drawn := FreshIds(ids, BlockCount(output.items));
    var converted := Convert(blank, output.items, output.stopReason, drawn);
    added := [];
    if converted.Err? {
      result := Err(ConversionRefused(converted.error));
      return;
    }
    var blocks := converted.value;
    ConvertedFacts(blank, output.items, output.stopReason, drawn);
    GeneratedUnique(ids, old(ids.next), |drawn|);
    DeclaredCallsDistinct(blocks);
    var batch := ToolBatch.New(DeclaredCalls(blocks));
    assert batch.Ok?;
    var failed := Append(context, blocks);
    if failed.Some? {
      result := Err(EditRefused(failed.value));
      return;
    }
    added := blocks;
    result := Ok(batch.value);
  }

  /** The results do not answer open calls once each, or the context would not take their blocks. */
  ghost predicate ResultsNotTaken(blocks: seq<Block>, results: seq<Recorded>, e: CommitError) {
    match e
    case ConversionRefused(_) => false
    case EditRefused(f) => Refused(blocks, f) && f.appended == OutcomeBlocks(results)
    case ResultsRefused(why) => Explains(blocks, results, why)
  }

  /** Appends the results of a batch; tells which outcome, if any, was never observed. */
  method CommitTools(context: Context.Context, batch: ToolBatch)
    returns (result: Result<Option<BlockId>, CommitError>, ghost results: seq<Recorded>)
    requires context.Valid() && Sound(batch.Current()) && batch.completed == |batch.entries|
    modifies context
    ensures context.Valid()
    ensures results == AllResults(batch.Current())
    ensures result.Err? ==> context.blocks == old(context.blocks) && ResultsNotTaken(context.blocks, results, result.error)
    ensures result.Ok? ==> && Appendable(old(context.blocks), results)
                           && context.blocks == old(context.blocks) + OutcomeBlocks(results)
    ensures result.Ok? ==> result.value == FirstUnobserved(results)
  {
    AllPlaced(batch.Current());
    var recorded := ResultsOf(batch.entries);
    results := recorded;
    var refused := ValidateAppend(context.blocks, recorded);
    if refused.Some? {
      result := Err(ResultsRefused(refused.value));
      return;
    }
    var unknown := FirstUnobserved(recorded);
    var failed := Append(context, OutcomeBlocks(recorded));
    result := if failed.Some? then Err(EditRefused(failed.value)) else Ok(unknown);
  }

  function FirstUnobserved(results: seq<Recorded>): (id: Option<BlockId>)
    ensures id.None? ==> forall i :: 0 <= i < |results| ==> !results[i].payload.status.Unobserved?
    ensures id.Some? ==> exists i :: 0 <= i < |results| && results[i].payload.status.Unobserved?
                                     && results[i].payload.callBlockId == id.value
  {
    if results == [] then None
    else if results[0].payload.status.Unobserved? then Some(results[0].payload.callBlockId)
    else
      var rest := FirstUnobserved(results[1..]);
      assert forall i :: 0 < i < |results| ==> results[i] == results[1..][i - 1];
      rest
  }

  lemma AllPlaced(b: Batch)
    requires Sound(b) && b.completed == |b.entries|
    ensures forall i :: 0 <= i < |b.entries| ==> b.entries[i].result.Some?
                                                 && b.entries[i].result.value.payload.callBlockId == b.entries[i].Id()
  {
    forall i | 0 <= i < |b.entries|
      ensures b.entries[i].result.Some? && b.entries[i].result.value.payload.callBlockId == b.entries[i].Id()
    {
      assert Placed(b, i);
    }
  }

  function AllResults(b: Batch): (results: seq<Recorded>)
    requires Sound(b) && b.completed == |b.entries|
    ensures |results| == |b.entries|
    ensures forall i :: 0 <= i < |results| ==> results[i].payload.callBlockId == b.entries[i].Id()
  {
    AllPlaced(b);
    ResultsOf(b.entries)
  }

  lemma ResultsAnswerMembers(b: Batch, id: BlockId)
    requires Sound(b) && b.completed == |b.entries|
    ensures AnswersCall(AllResults(b), id) <==> id in Members(b.entries)
  {
    if id in Members(b.entries) {
      var i :| 0 <= i < |b.entries| && b.entries[i].Id() == id;
      assert AllResults(b)[i].payload.callBlockId == id;
    }
  }
}
