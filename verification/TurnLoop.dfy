/**
 The turn loop: bind, ask the model, run its calls, append the results, and again, until the
 model ends its turn or something stops the run.
 */
module TurnLoop {
  import opened Wrappers
  import opened Model
  import opened Blocks
  import opened ToolSets
  import opened ToolHistory
  import opened ToolBatches
  import opened Handoff
  import opened Processing
  import opened Catalog
  import opened Conversion
  import opened FrameGrowth
  import opened TurnCommit
  import opened TurnStory
  import Context

  /** The model's side: any answer to any frame, and a record of what it was asked. */
  class Gateway {
    const answer: (nat, seq<Block>) -> Result<ModelOutput, ErrorKind>
    var asked: seq<seq<Block>>

    constructor (answer: (nat, seq<Block>) -> Result<ModelOutput, ErrorKind>)
      ensures this.answer == answer && asked == []
    {
      this.answer := answer;
      asked := [];
    }

    method Invoke(frame: seq<Block>) returns (output: Result<ModelOutput, ErrorKind>)
      modifies this
      ensures asked == old(asked) + [frame] && output == answer(|old(asked)|, frame)
    {
      output := answer(|asked|, frame);
      asked := asked + [frame];
    }
  }

  ghost predicate GoodHost(host: Host) {
    forall round :: RegisteredOnce(host.statics(round))
  }

  predicate AllNamed(surface: Tools) {
    forall i :: 0 <= i < |surface| ==> surface[i].name != ""
  }

  /** Tools are named and the model reuses no call id. */
  predicate Decent(n: ToolHistory.Names, r: Round) {
    AllNamed(r.surface) && FreshWireIds(n, r.frame, r.declared)
  }

  predicate Separate(context: Context.Context, ids: IdSource, control: Control) {
    context as object != ids && context as object != control && ids as object != control
  }

  ghost predicate Ready(context: Context.Context, ids: IdSource, control: Control)
    reads context, ids
  {
    Separate(context, ids, control) && context.Valid() && ids.Valid() && NoStrayResults(ids, context.blocks)
  }

  // -- the steps of a round ---------------------------------------------------------------

  lemma StrayAppended(ids: IdSource, blocks: seq<Block>, added: seq<Block>)
    requires NoStrayResults(ids, blocks)
    requires forall i :: 0 <= i < |added| ==> !added[i].content.Outcome?
    ensures NoStrayResults(ids, blocks + added)
  {
    forall k | k >= ids.next ensures !IsCompleted(blocks + added, ids.generate(k)) {
      SilentComplete(blocks, added, ids.generate(k));
    }
  }

  /** Binds the tools and records what changed about them. */
  method Prepare(context: Context.Context, ids: IdSource, control: Control, host: Host, round: nat)
    returns (result: Result<Bound, Interruption>, ghost added: seq<Block>)
    requires Ready(context, ids, control) && GoodHost(host)
    modifies context, ids, control
    ensures Ready(context, ids, control) && ids.next >= old(ids.next)
    ensures context.blocks == old(context.blocks) + added && ToolChange(old(context.blocks), Offered(host, round), added)
    ensures result.Err? ==> NotAsked(host, round, control.HasStopped(), context.blocks, result.error)
    ensures result.Ok? ==> && Consistent(result.value) && SameTools(CurrentTools(context.blocks), result.value.tools)
                           && result.value.tools == Offered(host, round)
    ensures result.Ok? && Sendable(host.names, old(context.blocks)) && AllNamed(result.value.tools) ==>
              Sendable(host.names, context.blocks)
  {
    added := [];
    assert context.blocks + [] == context.blocks;
    var bound := Bind(host.statics(round), host.listings(round), control);
    if bound.Err? {
      result := Err(if bound.error.ControlStopped? then RunStopped else CatalogFailed(bound.error));
      return;
    }
    var stopped := control.IsStopped();
    if stopped {
      result := Err(RunStopped);
      return;
    }
    ghost var before := context.blocks;
    var refused;
    refused, added := CommitToolChange(context, ids, bound.value.tools);
    StrayAppended(ids, before, added);
    if refused.Some? {
      result := Err(CommitFailed(refused.value));
      return;
    }
    ChangeSendable(host.names, before, added, bound.value.tools);
    result := Ok(bound.value);
  }

  lemma ChangeSendable(n: ToolHistory.Names, before: seq<Block>, added: seq<Block>, surface: Tools)
    requires UniqueNames(surface)
    requires ToolChange(before, surface, added)
    ensures Sendable(n, before) && AllNamed(surface) ==> Sendable(n, before + added)
  {
    if added == [] {
      assert before + added == before;
    } else if Sendable(n, before) && AllNamed(surface) {
      DifferenceIsSound(CurrentTools(before), surface);
      ChangeKeepsSendable(n, before, added[0]);
    }
  }

  /** Asks the model and keeps only an answer the run goes on with. */
  method Ask(control: Control, gateway: Gateway, frame: seq<Block>)
    returns (result: Result<ModelOutput, Interruption>, ghost reply: Reply)
    requires control as object != gateway
    modifies control, gateway
    ensures gateway.asked == old(gateway.asked) + [frame] && reply == gateway.answer(|old(gateway.asked)|, frame)
    ensures result.Ok? ==> && reply == Ok(result.value)
                           && (result.value.stopReason.EndTurn? || result.value.stopReason.ToolUse?)
    ensures result.Err? ==> Unanswered(control.HasStopped(), reply, result.error)
  {
    var answered := gateway.Invoke(frame);
    reply := answered;
    var stopped := control.IsStopped();
    if stopped {
      result := Err(RunStopped);
      return;
    }
    if answered.Err? {
      result := Err(ModelCallFailed(answered.error));
      return;
    }
    result := Err(ModelStopped(answered.value));
    match answered.value.stopReason {
      case EndTurn =>
      case ToolUse =>
      case MaxTokens => return;
      case Refusal => return;
      case ContextWindowExceeded => return;
      case Unrecognized => return;
    }
    stopped := control.IsStopped();
    result := if stopped then Err(RunStopped) else Ok(answered.value);
  }

  /** A batch that stays with the caller: the round's calls, none answered in the context. */
  ghost predicate LeftOver(context: Context.Context, batch: ToolBatch, host: Host, frame: seq<Block>, declared: seq<Block>)
    reads context, batch
  {
    && context.blocks == frame + declared
    && (forall id :: Declares(declared, id) ==> !IsCompleted(context.blocks, id))
    && (AllKeepMembers(host.before) && AllKeepMembers(host.after) ==> Members(batch.entries) == DeclaredIds(declared))
  }

  lemma NewCallsAreOpen(ids: IdSource, from: nat, frame: seq<Block>, declared: seq<Block>)
    requires Ids(declared) == Generated(ids, from, |declared|)
    requires forall k :: k >= from ==> !IsCompleted(frame, ids.generate(k))
    requires forall i :: 0 <= i < |declared| ==> !declared[i].content.Outcome?
    ensures forall id :: Declares(declared, id) ==> !IsCompleted(frame + declared, id)
  {
    forall id | Declares(declared, id) ensures !IsCompleted(frame + declared, id) {
      var i :| 0 <= i < |declared| && declared[i].content.Declaration? && declared[i].id == id;
      assert Ids(declared)[i] == ids.generate(from + i);
      SilentComplete(frame, declared, id);
    }
  }

  /** Results for calls that were generated earlier leave the ids to come alone. */
  lemma ResultsNotStray(ids: IdSource, from: nat, blocks: seq<Block>, declared: seq<Block>, results: seq<Recorded>)
    requires ids.Valid() && NoStrayResults(ids, blocks) && from + |declared| <= ids.next
    requires Ids(declared) == Generated(ids, from, |declared|)
    requires forall i :: 0 <= i < |results| ==> Declares(declared, results[i].payload.callBlockId)
    ensures NoStrayResults(ids, blocks + OutcomeBlocks(results))
  {
    forall k | k >= ids.next ensures !IsCompleted(blocks + OutcomeBlocks(results), ids.generate(k)) {
      OutcomesComplete(blocks, results, ids.generate(k));
      forall i | 0 <= i < |results| ensures results[i].payload.callBlockId != ids.generate(k) {
        var j :| 0 <= j < |declared| && declared[j].content.Declaration? && declared[j].id == results[i].payload.callBlockId;
        assert Ids(declared)[j] == ids.generate(from + j);
      }
    }
  }

  /** The batch's results answer exactly the round's calls. */
  lemma ResultsAreTheCalls(b: Batch, declared: seq<Block>)
    requires Sound(b) && b.completed == |b.entries| && Members(b.entries) == DeclaredIds(declared)
    ensures forall id :: Declares(declared, id) ==> AnswersCall(AllResults(b), id)
    ensures forall i :: 0 <= i < |AllResults(b)| ==> Declares(declared, AllResults(b)[i].payload.callBlockId)
  {
    forall id | Declares(declared, id) ensures AnswersCall(AllResults(b), id) {
      ResultsAnswerMembers(b, id);
    }
    forall i | 0 <= i < |AllResults(b)| ensures Declares(declared, AllResults(b)[i].payload.callBlockId) {
      assert b.entries[i].Id() in Members(b.entries);
    }
  }

  /** Appends the results of a processed batch: all of them, or none. */
  method FinishBatch(context: Context.Context, ids: IdSource, control: Control, batch: ToolBatch,
                     ghost from: nat, ghost frame: seq<Block>, ghost declared: seq<Block>)
    returns (ending: Option<Interruption>, kept: bool, ghost results: seq<Recorded>)
    requires Ready(context, ids, control) && batch as object != context && batch as object != control
    requires context.blocks == frame + declared && from + |declared| <= ids.next
    requires Ids(declared) == Generated(ids, from, |declared|)
    requires Sound(batch.Current()) && batch.completed == |batch.entries| && Members(batch.entries) == DeclaredIds(declared)
    modifies context, control
    ensures Ready(context, ids, control)
    ensures results == AllResults(batch.Current())
    ensures kept ==> && ending.Some? && ending.value.CommitFailed? && context.blocks == frame + declared
                     && ResultsNotTaken(frame + declared, results, ending.value.commit)
    ensures !kept ==> && context.blocks == frame + declared + OutcomeBlocks(results)
                      && Appendable(frame + declared, results)
                      && (forall id :: Declares(declared, id) ==> AnswersCall(results, id))
                      && if ending.Some? then NotGoneOn(control.HasStopped(), results, ending.value)
                         else FirstUnobserved(results).None?
  {
    ResultsAreTheCalls(batch.Current(), declared);
    var committed;
    committed, results := CommitTools(context, batch);
    if committed.Err? {
      return Some(CommitFailed(committed.error)), true, results;
    }
    ResultsNotStray(ids, from, frame + declared, declared, results);
    if committed.value.Some? {
      return Some(UnknownToolOutcome(committed.value.value)), false, results;
    }
    var stopped := control.IsStopped();
    ending := if stopped then Some(RunStopped) else None;
    kept := false;
  }

  /** Runs a batch through the round's processors and tools. */
  method ProcessBatch(ids: IdSource, control: Control, host: Host, round: nat, bound: Bound, batch: ToolBatch,
                      ghost entry: Round)
    returns (error: Option<ProcessingError>)
    requires ids as object != batch && control as object != batch && control as object != ids && ids.Valid()
    requires Consistent(bound) && entry.surface == bound.tools && batch.Current() == Opened(DeclaredCalls(entry.declared))
    modifies batch, ids, control
    ensures ids.next >= old(ids.next)
    ensures error.None? ==> && Sound(batch.Current()) && batch.completed == |batch.entries|
                            && CallsRan(host, round, entry.(results := AllResults(batch.Current())))
    ensures error.Some? ==> GivenUp(host, round, entry, batch.Current(), control.HasStopped(), error.value)
    ensures error.None? || (AllKeepMembers(host.before) && AllKeepMembers(host.after)) ==>
              Members(batch.entries) == Members(old(batch.entries))
  {
    var binding := Binding(bound.targets, host.before, host.after, host.rejection, host.schedule(round));
    assert binding == BindingOf(host, round, entry.surface);
    ghost var account;
    error, account := Process(batch, ids, control, binding);
  }

  /** Runs a batch and appends its results: all of them, or none. */
  method RunBatch(context: Context.Context, ids: IdSource, control: Control, host: Host, round: nat, bound: Bound,
                  batch: ToolBatch, ghost from: nat, ghost declaredBefore: nat, ghost entry: Round)
    returns (ending: Option<Interruption>, kept: bool, ghost results: seq<Recorded>)
    requires Ready(context, ids, control) && Consistent(bound) && entry.surface == bound.tools
    requires batch as object != context && batch as object != ids && batch as object != control
    requires context.blocks == entry.frame + entry.declared && from + |entry.declared| <= ids.next
    requires Ids(entry.declared) == Generated(ids, from, |entry.declared|)
    requires batch.Current() == Opened(DeclaredCalls(entry.declared)) && Sound(batch.Current())
    requires forall id :: Declares(entry.declared, id) ==> !IsCompleted(context.blocks, id)
    modifies context, ids, control, batch
    ensures Ready(context, ids, control) && ids.next >= old(ids.next)
    ensures kept ==> && ending.Some? && LeftOver(context, batch, host, entry.frame, entry.declared)
                     && NotAnswered(host, round, declaredBefore, entry, batch.Current(), control.HasStopped(), ending.value)
                     && !IsLimit(ending.value)
    ensures !kept ==> && context.blocks == AfterRound(entry.(results := results))
                      && Appendable(entry.frame + entry.declared, results)
                      && (forall id :: Declares(entry.declared, id) ==> AnswersCall(results, id))
                      && CallsRan(host, round, entry.(results := results))
                      && if ending.Some? then NotGoneOn(control.HasStopped(), results, ending.value)
                         else FirstUnobserved(results).None?
  {
    results := [];
    OpenedMembers(entry.declared);
    var error := ProcessBatch(ids, control, host, round, bound, batch, entry);
    if error.Some? {
      return Some(if error.value.Stopped? then RunStopped else ProcessingFailed(error.value)), true, results;
    }
    ending, kept, results := FinishBatch(context, ids, control, batch, from, entry.frame, entry.declared);
  }

  predicate Apart(gateway: Gateway, context: Context.Context, ids: IdSource, control: Control) {
    gateway as object != context && gateway as object != ids && gateway as object != control
  }

  predicate IsOutOfRounds(ending: Option<TurnResult>) {
    ending.Some? && ending.value.Interrupted? && ending.value.cause.MaxModelRounds?
  }

  /** A round with calls neither completes the turn nor runs out of rounds. */
  predicate MayGoOn(ending: Option<TurnResult>) {
    ending.Some? ==> ending.value.Interrupted? && !IsOutOfRounds(ending)
  }

  predicate IsOverLimit(ending: Option<TurnResult>) {
    ending.Some? && ending.value.Interrupted? && ending.value.cause.MaxToolCalls?
  }

  /** The batch handed back, as it is now. */
  ghost function Left(batch: Option<ToolBatch>): Option<Batch>
    reads if batch.Some? then {batch.value} else {}
  {
    if batch.Some? then Some(batch.value.Current()) else None
  }

  /** The calls of a round are counted, and run only if the count stays within the limit. */
  ghost predicate Counted(host: Host, declaredBefore: nat, declaredNow: nat, ending: Option<TurnResult>,
                          batch: Option<ToolBatch>, entry: Option<Round>)
    reads if batch.Some? then {batch.value} else {}
  {
    var count := if entry.Some? then CallCount(entry.value) else 0;
    && declaredNow <= host.maxCalls
    && (IsOverLimit(ending) <==> declaredBefore + count > host.maxCalls)
    && (if IsOverLimit(ending) then
          declaredNow == declaredBefore && batch.Some? && entry.Some?
          && batch.value.Current() == Opened(DeclaredCalls(entry.value.declared))
        else declaredNow == declaredBefore + count)
  }

  // -- a round ------------------------------------------------------------------------------

  /** What a round does to the accounts, the frame and the run. */
  ghost predicate RoundDone(context: Context.Context, host: Host, from: nat, before: seq<Block>,
                            ending: Option<TurnResult>, batch: Option<ToolBatch>, entry: Option<Round>)
    reads context, if batch.Some? then {batch.value} else {}
  {
    && before <= context.blocks
    && (batch.None? && from <= |before| && Accounted(before, from) ==> Accounted(context.blocks, from))
    && (batch.Some? ==> && ending.Some? && entry.Some?
                        && LeftOver(context, batch.value, host, entry.value.frame, entry.value.declared)
                        && before <= entry.value.frame
                        && (from <= |before| && Accounted(before, from) ==> Accounted(entry.value.frame, from)))
    && (ending.None? ==> batch.None? && entry.Some?)
    && (entry.Some? && Sendable(host.names, before) && AllNamed(entry.value.surface) ==> Sendable(host.names, entry.value.frame))
    && (ending.None? && Sendable(host.names, before) && Decent(host.names, entry.value) ==> Sendable(host.names, context.blocks))
  }

  /** A round that ended without its calls being run or answered: nothing but a change was added. */
  lemma OnlyChanged(before: seq<Block>, changes: seq<Block>, from: nat)
    requires forall i :: 0 <= i < |changes| ==> changes[i].content.ToolsChanged?
    ensures before <= before + changes
    ensures from <= |before| && Accounted(before, from) ==> Accounted(before + changes, from)
  {
    if from <= |before| && Accounted(before, from) {
      AccountedSilent(before, changes, from);
    }
  }

  /** An answer without calls, or a whole round, leaves the accounts settled. */
  lemma RoundSettles(n: ToolHistory.Names, frame: seq<Block>, declared: seq<Block>, results: seq<Recorded>, from: nat)
    requires from <= |frame| && forall i :: 0 <= i < |declared| ==> FromModel(n.blank, declared[i])
    requires Appendable(frame + declared, results) && UniqueIds(frame + declared)
    requires forall id :: Declares(declared, id) ==> AnswersCall(results, id)
    ensures var after := frame + declared + OutcomeBlocks(results);
            && frame <= after
            && (Accounted(frame, from) ==> Accounted(after, from))
            && (Sendable(n, frame) && FreshWireIds(n, frame, declared) ==> Sendable(n, after))
  {
    if Accounted(frame, from) {
      AccountedRound(frame, declared, results, from);
    }
    if Sendable(n, frame) && FreshWireIds(n, frame, declared) {
      RoundKeepsSendable(n, frame, declared, results);
    }
  }

  lemma {:induction false} NoCalls(declared: seq<Block>)
    requires forall i :: 0 <= i < |declared| ==> !declared[i].content.Declaration?
    ensures DeclaredCalls(declared) == []
    decreases |declared|
  {
    if declared != [] {
      NoCalls(declared[..|declared| - 1]);
    }
  }

  lemma AnswerSettles(n: ToolHistory.Names, frame: seq<Block>, declared: seq<Block>, from: nat)
    requires from <= |frame| && forall i :: 0 <= i < |declared| ==> FromModel(n.blank, declared[i])
    requires forall i :: 0 <= i < |declared| ==> !declared[i].content.Declaration?
    ensures Accounted(frame, from) ==> Accounted(frame + declared, from)
    ensures DeclaredCalls(declared) == []
  {
    NoCalls(declared);
    if Accounted(frame, from) {
      AccountedSilent(frame, declared, from);
    }
  }

  /** After the model's answer is committed: count, check for a stop, and run the batch. */
  method RunCalls(context: Context.Context, ids: IdSource, control: Control, host: Host, round: nat, bound: Bound,
                  batch: ToolBatch, declaredBefore: nat, ghost firstId: nat, ghost entry: Round)
    returns (ending: Option<TurnResult>, kept: Option<ToolBatch>, declaredNow: nat, ghost told: Round)
    requires Ready(context, ids, control) && declaredBefore <= host.maxCalls
    requires Consistent(bound) && entry.surface == bound.tools && entry.results == []
    requires batch as object != context && batch as object != ids && batch as object != control
    requires context.blocks == entry.frame + entry.declared && firstId + |entry.declared| <= ids.next
    requires Ids(entry.declared) == Generated(ids, firstId, |entry.declared|)
    requires batch.Current() == Opened(DeclaredCalls(entry.declared)) && Sound(batch.Current())
    requires forall id :: Declares(entry.declared, id) ==> !IsCompleted(context.blocks, id)
    modifies context, ids, control, batch
    ensures Ready(context, ids, control) && ids.next >= old(ids.next)
    ensures told == entry.(results := told.results) && context.blocks == AfterRound(told)
    ensures CallsTold(host, round, declaredBefore, control.HasStopped(), ending, Left(kept), told)
    ensures Counted(host, declaredBefore, declaredNow, ending, kept, Some(entry)) && MayGoOn(ending)
    ensures kept.Some? ==> kept.value == batch && LeftOver(context, batch, host, entry.frame, entry.declared)
    ensures kept.None? ==> && Appendable(entry.frame + entry.declared, told.results)
                           && (forall id :: Declares(entry.declared, id) ==> AnswersCall(told.results, id))
  {
    told := entry;
    NoOutcomes(context.blocks);
    OpenedMembers(entry.declared);
    var declaredThisRound := |batch.entries|;
    if declaredBefore + declaredThisRound > host.maxCalls {
      return Some(Interrupted(MaxToolCalls(declaredBefore, declaredThisRound))), Some(batch), declaredBefore, told;
    }
    declaredNow := declaredBefore + declaredThisRound;
    var stopped := control.IsStopped();
    if stopped {
      return Some(Interrupted(RunStopped)), Some(batch), declaredNow, told;
    }
    stopped := control.IsStopped();
    if stopped {
      return Some(Interrupted(RunStopped)), Some(batch), declaredNow, told;
    }
    var cause, left;
    ghost var results;
    cause, left, results := RunBatch(context, ids, control, host, round, bound, batch, firstId, declaredBefore, entry);
    ending := if cause.Some? then Some(Interrupted(cause.value)) else None;
    kept := if left then Some(batch) else None;
    told := if left then entry else entry.(results := results);
  }

  lemma NoOutcomes(blocks: seq<Block>)
    ensures blocks + OutcomeBlocks([]) == blocks
  {
  }

  /** Up to the model's answer. */
  method OpenRound(context: Context.Context, ids: IdSource, control: Control, gateway: Gateway, host: Host, round: nat,
                   ghost from: nat)
    returns (result: Result<(Bound, ModelOutput), Interruption>, ghost entry: Option<Round>)
    requires Ready(context, ids, control) && Apart(gateway, context, ids, control) && GoodHost(host)
    requires from <= |context.blocks|
    modifies context, ids, control, gateway
    ensures Ready(context, ids, control) && old(context.blocks) <= context.blocks
    ensures gateway.asked == old(gateway.asked) + if entry.Some? then [context.blocks] else []
    ensures Accounted(old(context.blocks), from) ==> Accounted(context.blocks, from)
    ensures entry.Some? ==>
              && entry.value == Round(entry.value.surface, context.blocks, entry.value.reply, [], [])
              && entry.value.reply == gateway.answer(|old(gateway.asked)|, context.blocks)
              && Begins(host, round, old(context.blocks), entry.value)
              && (Sendable(host.names, old(context.blocks)) && AllNamed(entry.value.surface) ==>
                    Sendable(host.names, context.blocks))
              && (result.Err? ==> Unanswered(control.HasStopped(), entry.value.reply, result.error))
    ensures entry.None? ==>
              && result.Err? && NotAsked(host, round, control.HasStopped(), context.blocks, result.error)
              && ToolChange(old(context.blocks), Offered(host, round), context.blocks[|old(context.blocks)|..])
    ensures result.Ok? ==> && entry.Some? && Consistent(result.value.0) && entry.value.surface == result.value.0.tools
                           && entry.value.reply == Ok(result.value.1)
                           && (result.value.1.stopReason.EndTurn? || result.value.1.stopReason.ToolUse?)
  {
    entry := None;
    ghost var before := context.blocks;
    ghost var changes;
    var bound;
    bound, changes := Prepare(context, ids, control, host, round);
    OnlyChanged(before, changes, from);
    assert context.blocks[|before|..] == changes;
    if bound.Err? {
      result := Err(bound.error);
      return;
    }
    var stopped := control.IsStopped();
    if stopped {
      result := Err(RunStopped);
      return;
    }
    var frame := context.blocks;
    stopped := control.IsStopped();
    if stopped {
      result := Err(RunStopped);
      return;
    }
    var asked;
    ghost var reply;
    asked, reply := Ask(control, gateway, frame);
    entry := Some(Round(bound.value.tools, frame, reply, [], []));
    result := if asked.Err? then Err(asked.error) else Ok((bound.value, asked.value));
  }

  /** The rest of a round whose answer is in the context. */
  method SettleRound(context: Context.Context, ids: IdSource, control: Control, host: Host, round: nat, bound: Bound,
                     calls: ToolBatch, declaredBefore: nat, ghost firstId: nat, ghost from: nat, ghost entry: Round)
    returns (ending: Option<TurnResult>, batch: Option<ToolBatch>, declaredNow: nat, ghost told: Round)
    requires Ready(context, ids, control) && declaredBefore <= host.maxCalls && from <= |entry.frame|
    requires Consistent(bound) && entry.surface == bound.tools && entry.results == []
    requires calls as object != context && calls as object != ids && calls as object != control
    requires context.blocks == entry.frame + entry.declared && firstId + |entry.declared| <= ids.next
    requires Ids(entry.declared) == Generated(ids, firstId, |entry.declared|)
    requires forall i :: 0 <= i < |entry.declared| ==> FromModel(host.names.blank, entry.declared[i])
    requires calls.Current() == Opened(DeclaredCalls(entry.declared)) && Sound(calls.Current())
    requires forall id :: Declares(entry.declared, id) ==> !IsCompleted(context.blocks, id)
    modifies context, ids, control, calls
    ensures Ready(context, ids, control) && (batch.Some? ==> batch.value == calls)
    ensures told == entry.(results := told.results) && context.blocks == AfterRound(told)
    ensures CallsTold(host, round, declaredBefore, control.HasStopped(), ending, Left(batch), told)
    ensures Counted(host, declaredBefore, declaredNow, ending, batch, Some(entry)) && MayGoOn(ending)
    ensures batch.Some? ==> ending.Some? && LeftOver(context, calls, host, entry.frame, entry.declared)
    ensures entry.frame <= context.blocks
    ensures batch.None? ==> && (Accounted(entry.frame, from) ==> Accounted(context.blocks, from))
                            && (Sendable(host.names, entry.frame) && FreshWireIds(host.names, entry.frame, entry.declared) ==>
                                  Sendable(host.names, context.blocks))
  {
    ending, batch, declaredNow, told := RunCalls(context, ids, control, host, round, bound, calls,
                                                 declaredBefore, firstId, entry);
    if batch.None? {
      RoundSettles(host.names, entry.frame, entry.declared, told.results, from);
    }
  }

  /** From the model's answer on. */
  method AnswerRound(context: Context.Context, ids: IdSource, control: Control, host: Host, round: nat, bound: Bound,
                     output: ModelOutput, declaredBefore: nat, ghost from: nat, ghost begun: Round)
    returns (ending: Option<TurnResult>, batch: Option<ToolBatch>, declaredNow: nat, ghost entry: Round)
    requires Ready(context, ids, control) && declaredBefore <= host.maxCalls && from <= |begun.frame|
    requires Consistent(bound) && begun == Round(bound.tools, context.blocks, Ok(output), [], [])
    requires output.stopReason.EndTurn? || output.stopReason.ToolUse?
    modifies context, ids, control
    ensures Ready(context, ids, control) && (batch.Some? ==> fresh(batch.value))
    ensures entry == begun.(declared := entry.declared, results := entry.results)
    ensures Counted(host, declaredBefore, declaredNow, ending, batch, Some(entry))
    ensures RoundDone(context, host, from, begun.frame, ending, batch, Some(entry)) && !IsOutOfRounds(ending)
    ensures AnswerTold(host, round, declaredBefore, control.HasStopped(), context.blocks, ending, Left(batch), entry)
  {
    batch, declaredNow, entry := None, declaredBefore, begun;
    ghost var firstId := ids.next;
    var committed;
    ghost var declared;
    committed, declared := CommitModel(context, ids, host.names.blank, output);
    if committed.Err? {
      ending := Some(Interrupted(CommitFailed(committed.error)));
      return;
    }
    NewCallsAreOpen(ids, firstId, begun.frame, declared);
    StrayAppended(ids, begun.frame, declared);
    entry := begun.(declared := declared);
    if output.stopReason.EndTurn? {
      AnswerSettles(host.names, begun.frame, declared, from);
      ending := Some(Completed(output));
      return;
    }
    ending, batch, declaredNow, entry := SettleRound(context, ids, control, host, round, bound, committed.value,
                                                     declaredBefore, firstId, from, entry);
  }

  lemma RoundFrom(context: Context.Context, host: Host, from: nat, before: seq<Block>, frame: seq<Block>,
                  ending: Option<TurnResult>, batch: Option<ToolBatch>, entry: Round)
    requires before <= frame && from <= |before| && entry.frame == frame
    requires Accounted(before, from) ==> Accounted(frame, from)
    requires Sendable(host.names, before) && AllNamed(entry.surface) ==> Sendable(host.names, frame)
    requires RoundDone(context, host, from, frame, ending, batch, Some(entry))
    ensures RoundDone(context, host, from, before, ending, batch, Some(entry))
  {
    PrefixChain(before, frame, context.blocks);
  }

  /**
   One round of a run. Its entry says what the model was given, what it replied and what became of
   that, and every way it can end the run has its cause there, in the host or in control.
   */
  method RunRound(context: Context.Context, ids: IdSource, control: Control, gateway: Gateway, host: Host, round: nat,
                  declaredBefore: nat, ghost from: nat)
    returns (ending: Option<TurnResult>, batch: Option<ToolBatch>, declaredNow: nat, ghost entry: Option<Round>)
    requires Ready(context, ids, control) && Apart(gateway, context, ids, control) && GoodHost(host)
    requires declaredBefore <= host.maxCalls && from <= |context.blocks|
    modifies context, ids, control, gateway
    ensures Ready(context, ids, control) && (batch.Some? ==> fresh(batch.value))
    ensures gateway.asked == old(gateway.asked) + if entry.Some? then [entry.value.frame] else []
    ensures entry.Some? ==> entry.value.reply == gateway.answer(|old(gateway.asked)|, entry.value.frame)
    ensures Told(host, round, declaredBefore, control.HasStopped(), old(context.blocks), context.blocks, ending, Left(batch), entry)
    ensures Counted(host, declaredBefore, declaredNow, ending, batch, entry)
    ensures RoundDone(context, host, from, old(context.blocks), ending, batch, entry) && !IsOutOfRounds(ending)
  {
    batch, declaredNow := None, declaredBefore;
    ghost var before := context.blocks;
    var begun;
    begun, entry := OpenRound(context, ids, control, gateway, host, round, from);
    if begun.Err? {
      if entry.Some? {
        UnansweredTold(host, round, declaredBefore, control.HasStopped(), before, entry.value, begun.error);
      } else {
        NotAskedTold(host, round, declaredBefore, control.HasStopped(), before, context.blocks, begun.error);
      }
      ending := Some(Interrupted(begun.error));
      return;
    }
    ghost var frame, started, last := context.blocks, entry.value, entry.value;
    ending, batch, declaredNow, last := AnswerRound(context, ids, control, host, round, begun.value.0, begun.value.1,
                                                    declaredBefore, from, started);
    entry := Some(last);
    BegunTold(host, round, declaredBefore, control.HasStopped(), before, context.blocks, ending, Left(batch), started, last);
    RoundFrom(context, host, from, before, frame, ending, batch, last);
  }

  // -- the run --------------------------------------------------------------------------------

  ghost predicate AllDecent(n: ToolHistory.Names, log: seq<Round>) {
    forall k :: 0 <= k < |log| ==> Decent(n, log[k])
  }

  /** A frame can be sent when the rounds before it were decent and its own tools are named. */
  ghost predicate AllSendable(n: ToolHistory.Names, log: seq<Round>) {
    forall k :: 0 <= k < |log| && AllDecent(n, log[..k]) && AllNamed(log[k].surface) ==> Sendable(n, log[k].frame)
  }

  function FramesOf(log: seq<Round>): (frames: seq<seq<Block>>)
    ensures |frames| == |log| && forall k :: 0 <= k < |log| ==> frames[k] == log[k].frame
  {
    seq(|log|, k requires 0 <= k < |log| => log[k].frame)
  }

  /** What the gateway answered when it was asked with the frames of the log, in turn. */
  predicate Replied(gateway: Gateway, asked: nat, log: seq<Round>) {
    forall k :: 0 <= k < |log| ==> log[k].reply == gateway.answer(asked + k, log[k].frame)
  }

  /** Between rounds: accounts settled, and everything sendable that rests on decent rounds. */
  ghost predicate RunningOn(n: ToolHistory.Names, first: seq<Block>, blocks: seq<Block>, log: seq<Round>) {
    && first <= blocks && Accounted(blocks, |first|)
    && (Sendable(n, first) ==> AllSendable(n, log) && (AllDecent(n, log) ==> Sendable(n, blocks)))
  }

  /** What a run owes when it returns. */
  ghost predicate RunDone(context: Context.Context, host: Host, first: seq<Block>, batch: Option<ToolBatch>,
                          log: seq<Round>)
    reads context, if batch.Some? then {batch.value} else {}
  {
    && first <= context.blocks && |log| <= host.maxRounds
    && (batch.None? ==> Accounted(context.blocks, |first|))
    && (batch.Some? ==> && log != []
                        && LeftOver(context, batch.value, host, log[|log| - 1].frame, log[|log| - 1].declared)
                        && first <= log[|log| - 1].frame && Accounted(log[|log| - 1].frame, |first|))
    && (Sendable(host.names, first) ==> AllSendable(host.names, log))
  }

  /** The run stops for its calls exactly when the last round's are too many, and leaves them as they were opened. */
  ghost predicate WithinCalls(host: Host, result: TurnResult, batch: Option<ToolBatch>, log: seq<Round>)
    reads if batch.Some? then {batch.value} else {}
  {
    && (IsOverLimit(Some(result)) <==> CallsIn(log) > host.maxCalls)
    && (IsOverLimit(Some(result)) ==>
          && log != [] && CallsIn(log[..|log| - 1]) <= host.maxCalls && batch.Some?
          && batch.value.Current() == Opened(DeclaredCalls(log[|log| - 1].declared)))
  }

  lemma CallsHere(host: Host, declaredBefore: nat, declaredNow: nat, result: TurnResult, batch: Option<ToolBatch>,
                  past: seq<Round>, entry: Option<Round>, log: seq<Round>)
    requires declaredBefore == CallsIn(past) <= host.maxCalls
    requires Counted(host, declaredBefore, declaredNow, Some(result), batch, entry)
    requires log == if entry.Some? then past + [entry.value] else past
    ensures WithinCalls(host, result, batch, log)
  {
    if entry.Some? {
      CallsMore(past, entry.value);
      PastLog(past, entry.value);
      assert |log| - 1 == |past|;
    }
  }

  /** What a round does to the run's accounts and to what it may send. */
  lemma RoundKeepsRun(context: Context.Context, host: Host, first: seq<Block>, before: seq<Block>,
                      ending: Option<TurnResult>,
                      batch: Option<ToolBatch>, past: seq<Round>, entry: Option<Round>, log: seq<Round>)
    requires RunningOn(host.names, first, before, past) && |past| < host.maxRounds
    requires RoundDone(context, host, |first|, before, ending, batch, entry)
    requires log == if entry.Some? then past + [entry.value] else past
    ensures ending.Some? ==> RunDone(context, host, first, batch, log)
    ensures ending.None? ==> RunningOn(host.names, first, context.blocks, log)
  {
    PrefixChain(first, before, context.blocks);
    if entry.Some? {
      LogMore(host.names, past, entry.value);
      assert |log| - 1 == |past|;
    }
    if batch.Some? {
      PrefixChain(first, before, entry.value.frame);
    }
  }

  lemma {:induction false} AskedMore(asked: seq<seq<Block>>, before: seq<seq<Block>>, now: seq<seq<Block>>,
                                     past: seq<Round>,
                                     entry: Option<Round>, log: seq<Round>)
    requires log == if entry.Some? then past + [entry.value] else past
    requires before == asked + FramesOf(past) && now == before + if entry.Some? then [entry.value.frame] else []
    ensures now == asked + FramesOf(log)
    ensures CallsIn(log) == CallsIn(past) + (if entry.Some? then CallCount(entry.value) else 0)
  {
    if entry.Some? {
      CallsMore(past, entry.value);
      FramesMore(past, entry.value);
    }
  }

  lemma {:induction false} RepliedMore(gateway: Gateway, asked: nat, at: nat, past: seq<Round>, entry: Option<Round>,
                                       log: seq<Round>)
    requires log == if entry.Some? then past + [entry.value] else past
    requires Replied(gateway, asked, past) && at == asked + |past|
    requires entry.Some? ==> entry.value.reply == gateway.answer(at, entry.value.frame)
    ensures Replied(gateway, asked, log)
  {
    forall k | 0 <= k < |log| ensures log[k].reply == gateway.answer(asked + k, log[k].frame) {
      if k < |past| {
        assert log[k] == past[k];
      }
    }
  }

  /** One more round of a run, entered in its log. */
  method NextRound(context: Context.Context, ids: IdSource, control: Control, gateway: Gateway, host: Host, round: nat,
                   declaredBefore: nat, ghost first: seq<Block>, ghost asked: seq<seq<Block>>, ghost past: seq<Round>)
    returns (ending: Option<TurnResult>, batch: Option<ToolBatch>, declaredNow: nat, ghost log: seq<Round>)
    requires Ready(context, ids, control) && Apart(gateway, context, ids, control) && GoodHost(host)
    requires |past| == round < host.maxRounds && declaredBefore == CallsIn(past) <= host.maxCalls
    requires gateway.asked == asked + FramesOf(past) && Replied(gateway, |asked|, past)
    requires RunningOn(host.names, first, context.blocks, past)
    requires History(host, first, past) && context.blocks == Reached(first, past)
    modifies context, ids, control, gateway
    ensures Ready(context, ids, control) && (batch.Some? ==> fresh(batch.value))
    ensures gateway.asked == asked + FramesOf(log) && Replied(gateway, |asked|, log)
    ensures ending.None? ==> && |log| == round + 1 && declaredNow == CallsIn(log) <= host.maxCalls && batch.None?
                             && RunningOn(host.names, first, context.blocks, log)
                             && History(host, first, log) && context.blocks == Reached(first, log)
    ensures ending.Some? ==> && RunDone(context, host, first, batch, log) && WithinCalls(host, ending.value, batch, log)
                             && RunTold(host, control.HasStopped(), first, context.blocks, ending.value, Left(batch), log)
  {
    ghost var before, asking, entry := context.blocks, gateway.asked, None;
    ending, batch, declaredNow, entry := RunRound(context, ids, control, gateway, host, round, declaredBefore, |first|);
    log := if entry.Some? then past + [entry.value] else past;
    RoundKeepsRun(context, host, first, before, ending, batch, past, entry, log);
    AskedMore(asked, asking, gateway.asked, past, entry, log);
    RepliedMore(gateway, |asked|, |asking|, past, entry, log);
    if ending.Some? {
      CallsHere(host, declaredBefore, declaredNow, ending.value, batch, past, entry, log);
      RunEnds(host, round, declaredBefore, control.HasStopped(), first, before, context.blocks, ending.value, Left(batch), past,
              entry, log);
    } else {
      RunGoesOn(host, round, declaredBefore, control.HasStopped(), first, before, context.blocks, Left(batch), past, entry, log);
    }
  }

  /**
   Runs rounds until one ends the turn. Every round of the log begins where the one before it
   ended, was given the context with at most a tool change, and left in it the blocks of the reply
   and the results of its processed calls; the result is the one its last round, control or a limit
   bears out. The model is asked at most `maxRounds` times, and a round whose calls would make more
   than `maxCalls` ends the run with those calls untouched. Without a batch left over, every call the
   run appended has exactly one result; with one, it holds the last round's calls, none of them
   answered. If the context could be sent at the start, every frame the model was given could be
   sent, as long as tools have names and no call id was used again before it.
   */
  method RunLoop(context: Context.Context, ids: IdSource, control: Control, gateway: Gateway, host: Host)
    returns (result: TurnResult, batch: Option<ToolBatch>, ghost log: seq<Round>)
    requires Ready(context, ids, control) && Apart(gateway, context, ids, control) && GoodHost(host)
    modifies context, ids, control, gateway
    ensures context.Valid() && (batch.Some? ==> fresh(batch.value))
    ensures gateway.asked == old(gateway.asked) + FramesOf(log) && Replied(gateway, |old(gateway.asked)|, log)
    ensures RunTold(host, control.HasStopped(), old(context.blocks), context.blocks, result, Left(batch), log)
    ensures RunDone(context, host, old(context.blocks), batch, log) && WithinCalls(host, result, batch, log)
  {
    ghost var first, asked := context.blocks, gateway.asked;
    var round, declared := 0, 0;
    log := [];
    assert gateway.asked == asked + FramesOf(log);
    while true
      invariant 0 <= round <= host.maxRounds && |log| == round && declared == CallsIn(log) <= host.maxCalls
      invariant Ready(context, ids, control)
      invariant gateway.asked == asked + FramesOf(log) && Replied(gateway, |asked|, log)
      invariant RunningOn(host.names, first, context.blocks, log)
      invariant History(host, first, log) && context.blocks == Reached(first, log)
      decreases host.maxRounds - round
    {
      var stopped := control.IsStopped();
      if stopped {
        return Interrupted(RunStopped), None, log;
      }
      if round >= host.maxRounds {
        return Interrupted(MaxModelRounds(host.maxRounds)), None, log;
      }
      var ending;
      ending, batch, declared, log := NextRound(context, ids, control, gateway, host, round, declared, first, asked, log);
      if ending.Some? {
        return ending.value, batch, log;
      }
      round := round + 1;
    }
  }

  lemma PrefixChain(a: seq<Block>, b: seq<Block>, c: seq<Block>)
    ensures a <= b <= c ==> a <= c
  {
    if a <= b <= c {
      assert c[..|a|] == b[..|a|];
    }
  }

  lemma CallsMore(log: seq<Round>, r: Round)
    ensures CallsIn(log + [r]) == CallsIn(log) + CallCount(r)
  {
    PastLog(log, r);
  }

  lemma FramesMore(log: seq<Round>, r: Round)
    ensures FramesOf(log + [r]) == FramesOf(log) + [r.frame]
  {
  }

  lemma LogMore(n: ToolHistory.Names, log: seq<Round>, r: Round)
    ensures (log + [r])[..|log|] == log && (log + [r])[|log|] == r
    ensures CallsIn(log + [r]) == CallsIn(log) + CallCount(r) && FramesOf(log + [r]) == FramesOf(log) + [r.frame]
    ensures AllDecent(n, log + [r]) ==> AllDecent(n, log) && Decent(n, r)
    ensures AllSendable(n, log) && (AllDecent(n, log) && AllNamed(r.surface) ==> Sendable(n, r.frame)) ==>
              AllSendable(n, log + [r])
  {
    CallsMore(log, r);
    FramesMore(log, r);
    DecentLog(n, log, r);
    SendableLog(n, log, r);
  }

  lemma DecentLog(n: ToolHistory.Names, log: seq<Round>, r: Round)
    ensures AllDecent(n, log + [r]) ==> AllDecent(n, log) && Decent(n, r)
  {
    var more := log + [r];
    if AllDecent(n, more) {
      assert Decent(n, more[|log|]);
      forall k | 0 <= k < |log| ensures Decent(n, log[k]) {
        assert Decent(n, more[k]) && more[k] == log[k];
      }
    }
  }

  lemma SendableLog(n: ToolHistory.Names, log: seq<Round>, r: Round)
    ensures AllSendable(n, log) && (AllDecent(n, log) && AllNamed(r.surface) ==> Sendable(n, r.frame)) ==>
              AllSendable(n, log + [r])
  {
    var more := log + [r];
    if AllSendable(n, log) && (AllDecent(n, log) && AllNamed(r.surface) ==> Sendable(n, r.frame)) {
      forall k | 0 <= k < |more| && AllDecent(n, more[..k]) && AllNamed(more[k].surface) ensures Sendable(n, more[k].frame) {
        if k < |log| {
          assert more[..k] == log[..k] && more[k] == log[k];
        } else {
          assert more[..k] == log;
        }
      }
    }
  }
}
