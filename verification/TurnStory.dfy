/**
 What a run of the turn loop leaves behind: its rounds, each with what it bound, was asked, was
 answered and ran, and the cause that ended it.
 */
module TurnStory {
  import opened Wrappers
  import opened Json
  import opened Model
  import opened Blocks
  import opened ToolSets
  import opened ToolHistory
  import opened ToolBatches
  import opened Handoff
  import opened Dispatch
  import Processing
  import opened Catalog
  import opened Conversion
  import opened FrameGrowth
  import opened TurnCommit

  datatype Interruption =
    | RunStopped
    | MaxModelRounds(limit: nat)
    | CatalogFailed(catalog: CatalogError)
    | CommitFailed(commit: CommitError)
    | ModelCallFailed(kind: ErrorKind)
    | ModelStopped(output: ModelOutput)
    | MaxToolCalls(declaredBefore: nat, declaredNow: nat)
    | ProcessingFailed(processing: ProcessingError)
    | UnknownToolOutcome(id: BlockId)

  /** The causes that the limits of a run give. */
  predicate IsLimit(cause: Interruption) {
    cause.MaxToolCalls? || cause.MaxModelRounds?
  }

  datatype TurnResult = Completed(output: ModelOutput) | Interrupted(cause: Interruption)

  /** Everything around the loop: the tools, the model, the processors and how tasks will run. */
  datatype Host = Host(names: ToolHistory.Names,
                       statics: nat -> seq<StaticTool>, listings: nat -> seq<Listing>,
                       before: seq<Processor>, after: seq<Processor>,
                       rejection: string -> Json, schedule: nat -> seq<Event>,
                       maxRounds: nat, maxCalls: nat)

  type Reply = Result<ModelOutput, ErrorKind>

  /**
   One call of the model: the tools bound, the frame it was given, its reply, the blocks kept of
   that, and the results of its calls.
   */
  datatype Round = Round(surface: Tools, frame: seq<Block>, reply: Reply, declared: seq<Block>, results: seq<Recorded>)

  function CallCount(r: Round): nat {
    |DeclaredCalls(r.declared)|
  }

  /** The context once the round is over. */
  function AfterRound(r: Round): seq<Block> {
    r.frame + r.declared + OutcomeBlocks(r.results)
  }

  // -- the facts of a round -----------------------------------------------------------------

  function Offered(host: Host, round: nat): Tools {
    Definitions(host.statics(round)) + Listed(host.listings(round))
  }

  /** The model was given the context so far and at most one tool change, after which it offers the bound tools. */
  ghost predicate Begins(host: Host, round: nat, before: seq<Block>, r: Round) {
    && r.surface == Offered(host, round) && before <= r.frame
    && ToolChange(before, r.surface, r.frame[|before|..]) && SameTools(CurrentTools(r.frame), r.surface)
  }

  /** The model answered with calls, and the round holds the blocks of that answer. */
  predicate RepliedWithCalls(host: Host, r: Round) {
    && r.reply.Ok? && r.reply.value.stopReason.ToolUse?
    && ToBlocks(host.names.blank, r.reply.value.items, ToolUse, Ids(r.declared)) == Ok(r.declared)
  }

  function BindingOf(host: Host, round: nat, surface: Tools): Processing.Binding {
    Processing.Binding(NameSet(surface), host.before, host.after, host.rejection, host.schedule(round))
  }

  /** The results are those of a batch of the round's calls, processed to its end. */
  ghost predicate CallsRan(host: Host, round: nat, r: Round) {
    exists account: Processing.Account, last: Batch ::
      && Processing.Processed(BindingOf(host, round, r.surface), account, Opened(DeclaredCalls(r.declared)), last)
      && r.results == AllResults(last)
  }

  /** The results answer exactly the round's calls, none of which was answered before. */
  ghost predicate Answered(r: Round) {
    Appendable(r.frame + r.declared, r.results) && forall id :: Declares(r.declared, id) ==> AnswersCall(r.results, id)
  }

  /** A batch of the round's calls was given up in the middle, and `left` is what it came to. */
  ghost predicate GivenUp(host: Host, round: nat, r: Round, left: Batch, stopped: bool, e: ProcessingError) {
    exists account: Processing.Account ::
      Processing.Interrupted(BindingOf(host, round, r.surface), account, Opened(DeclaredCalls(r.declared)), left, stopped, e)
  }

  /** The model ended its turn, and its blocks end the context. */
  predicate Finishes(host: Host, r: Round, output: ModelOutput, blocks: seq<Block>) {
    && r.reply == Ok(output) && output.stopReason.EndTurn?
    && ToBlocks(host.names.blank, output.items, EndTurn, Ids(r.declared)) == Ok(r.declared)
    && blocks == r.frame + r.declared
  }

  // -- the causes -----------------------------------------------------------------------------

  /** Why the model was not asked. */
  ghost predicate NotAsked(host: Host, round: nat, stopped: bool, blocks: seq<Block>, cause: Interruption) {
    match cause
    case RunStopped => stopped
    case CatalogFailed(e) => Hinders(host.statics(round), host.listings(round), stopped, e) && !e.ControlStopped?
    case CommitFailed(e) => ChangeRefused(blocks, Offered(host, round), e)
    case _ => false
  }

  /** Why the model's reply is of no use to the run. */
  predicate Unanswered(stopped: bool, reply: Reply, cause: Interruption) {
    match cause
    case RunStopped => stopped
    case ModelCallFailed(kind) => reply == Err(kind)
    case ModelStopped(output) => reply == Ok(output) && !output.stopReason.EndTurn? && !output.stopReason.ToolUse?
    case _ => false
  }

  /** Why nothing of the reply is in the context. */
  ghost predicate NotKept(host: Host, stopped: bool, frame: seq<Block>, reply: Reply, cause: Interruption) {
    || Unanswered(stopped, reply, cause)
    || (cause.CommitFailed? && reply.Ok? && AnswerRefused(frame, host.names.blank, reply.value, cause.commit))
  }

  /** Why the round's calls stay with the caller, in the batch `left`. */
  ghost predicate NotAnswered(host: Host, round: nat, declaredBefore: nat, r: Round, left: Batch, stopped: bool,
                              cause: Interruption)
  {
    match cause
    case RunStopped =>
      (stopped && left == Opened(DeclaredCalls(r.declared))) || GivenUp(host, round, r, left, stopped, Stopped)
    case MaxToolCalls(before, now) =>
      && left == Opened(DeclaredCalls(r.declared)) && before == declaredBefore && now == CallCount(r)
      && before + now > host.maxCalls
    case ProcessingFailed(e) => !e.Stopped? && GivenUp(host, round, r, left, stopped, e)
    case CommitFailed(e) =>
      exists results :: CallsRan(host, round, r.(results := results)) && ResultsNotTaken(r.frame + r.declared, results, e)
    case _ => false
  }

  /** Why a round ended the run with its results in the context. */
  predicate NotGoneOn(stopped: bool, results: seq<Recorded>, cause: Interruption) {
    match cause
    case RunStopped => stopped && FirstUnobserved(results).None?
    case UnknownToolOutcome(id) => FirstUnobserved(results) == Some(id)
    case _ => false
  }

  /** How the round's calls came out: all of them ran, or they stay in `left` for the reason given. */
  ghost predicate CallsTold(host: Host, round: nat, declaredBefore: nat, stopped: bool, ending: Option<TurnResult>,
                            left: Option<Batch>, r: Round)
  {
    if left.Some? then
      && ending.Some? && ending.value.Interrupted? && r.results == []
      && NotAnswered(host, round, declaredBefore, r, left.value, stopped, ending.value.cause)
    else
      && CallsRan(host, round, r) && Answered(r)
      && if ending.Some? then ending.value.Interrupted? && NotGoneOn(stopped, r.results, ending.value.cause)
         else FirstUnobserved(r.results).None?
  }

  /** How a round came out whose frame the model was given. */
  ghost predicate AnswerTold(host: Host, round: nat, declaredBefore: nat, stopped: bool, blocks: seq<Block>,
                             ending: Option<TurnResult>, left: Option<Batch>, r: Round)
  {
    || (ending.Some? && ending.value.Completed? && r.results == [] && left.None?
        && Finishes(host, r, ending.value.output, blocks))
    || (ending.Some? && ending.value.Interrupted? && r.declared == [] && r.results == [] && left.None? && blocks == r.frame
        && NotKept(host, stopped, r.frame, r.reply, ending.value.cause))
    || (RepliedWithCalls(host, r) && CallsTold(host, round, declaredBefore, stopped, ending, left, r)
        && blocks == AfterRound(r))
  }

  /** A whole round, after which the run goes on or not. */
  ghost predicate Told(host: Host, round: nat, declaredBefore: nat, stopped: bool, before: seq<Block>,
                       blocks: seq<Block>, ending: Option<TurnResult>, left: Option<Batch>, entry: Option<Round>)
  {
    match entry
    case None =>
      && ending.Some? && ending.value.Interrupted? && left.None?
      && before <= blocks && ToolChange(before, Offered(host, round), blocks[|before|..])
      && NotAsked(host, round, stopped, blocks, ending.value.cause)
    case Some(r) =>
      Begins(host, round, before, r) && AnswerTold(host, round, declaredBefore, stopped, blocks, ending, left, r)
  }

  lemma {:induction false} NotAskedTold(host: Host, round: nat, declaredBefore: nat, stopped: bool, before: seq<Block>,
                                        blocks: seq<Block>, cause: Interruption)
    requires before <= blocks && ToolChange(before, Offered(host, round), blocks[|before|..])
    requires NotAsked(host, round, stopped, blocks, cause)
    ensures Told(host, round, declaredBefore, stopped, before, blocks, Some(Interrupted(cause)), None, None)
  {
  }

  lemma {:induction false} UnansweredTold(host: Host, round: nat, declaredBefore: nat, stopped: bool,
                                          before: seq<Block>, r: Round,
                                          cause: Interruption)
    requires Begins(host, round, before, r) && r.declared == [] && r.results == [] && Unanswered(stopped, r.reply, cause)
    ensures Told(host, round, declaredBefore, stopped, before, r.frame, Some(Interrupted(cause)), None, Some(r))
  {
  }

  lemma {:induction false} BegunTold(host: Host, round: nat, declaredBefore: nat, stopped: bool, before: seq<Block>,
                                     blocks: seq<Block>, ending: Option<TurnResult>, left: Option<Batch>, begun: Round, r: Round)
    requires Begins(host, round, before, begun) && r == begun.(declared := r.declared, results := r.results)
    requires AnswerTold(host, round, declaredBefore, stopped, blocks, ending, left, r)
    ensures Told(host, round, declaredBefore, stopped, before, blocks, ending, left, Some(r))
  {
  }

  // -- the log --------------------------------------------------------------------------------

  function CallsIn(log: seq<Round>): nat {
    if log == [] then 0 else CallsIn(log[..|log| - 1]) + CallCount(log[|log| - 1])
  }

  /** Where the log's rounds take the context. */
  function Reached(first: seq<Block>, log: seq<Round>): seq<Block> {
    if log == [] then first else AfterRound(log[|log| - 1])
  }

  /** A round the run went on from: it was answered with calls, and they all ran. */
  ghost predicate WentOn(host: Host, round: nat, before: seq<Block>, r: Round) {
    && Begins(host, round, before, r) && RepliedWithCalls(host, r) && CallsRan(host, round, r)
    && Answered(r) && FirstUnobserved(r.results).None?
  }

  /** Each round begins where the one before it ended, and the run went on from it. */
  ghost predicate History(host: Host, first: seq<Block>, log: seq<Round>)
    decreases |log|
  {
    log != [] ==>
      var past, r := log[..|log| - 1], log[|log| - 1];
      History(host, first, past) && WentOn(host, |past|, Reached(first, past), r)
  }

  /** After the rounds of `past`, a last one that ended the run. */
  ghost predicate LastTold(host: Host, stopped: bool, first: seq<Block>, blocks: seq<Block>,
                           result: TurnResult, left: Option<Batch>, past: seq<Round>, entry: Option<Round>)
  {
    && History(host, first, past)
    && Told(host, |past|, CallsIn(past), stopped, Reached(first, past), blocks, Some(result), left, entry)
  }

  /** Between two rounds, control or the limit on rounds ended the run. */
  ghost predicate NotBegun(host: Host, stopped: bool, first: seq<Block>, blocks: seq<Block>,
                           result: TurnResult, left: Option<Batch>, log: seq<Round>)
  {
    && History(host, first, log) && blocks == Reached(first, log) && left.None?
    && ((stopped && result == Interrupted(RunStopped))
        || (|log| == host.maxRounds && result == Interrupted(MaxModelRounds(host.maxRounds))))
  }

  /** The whole of a run, from its first blocks to its result. */
  ghost predicate RunTold(host: Host, stopped: bool, first: seq<Block>, blocks: seq<Block>,
                          result: TurnResult, left: Option<Batch>, log: seq<Round>)
  {
    || NotBegun(host, stopped, first, blocks, result, left, log)
    || LastTold(host, stopped, first, blocks, result, left, log, None)
    || (log != [] && LastTold(host, stopped, first, blocks, result, left, log[..|log| - 1], Some(log[|log| - 1])))
  }

  lemma PastLog(log: seq<Round>, r: Round)
    ensures (log + [r])[..|log|] == log && (log + [r])[|log|] == r
  {
  }

  lemma {:induction false} HistoryMore(host: Host, first: seq<Block>, past: seq<Round>, r: Round)
    requires History(host, first, past) && WentOn(host, |past|, Reached(first, past), r)
    ensures History(host, first, past + [r]) && AfterRound(r) == Reached(first, past + [r])
  {
    PastLog(past, r);
  }

  lemma {:induction false} HistoryLast(host: Host, first: seq<Block>, log: seq<Round>, past: seq<Round>, r: Round)
    requires log != [] && History(host, first, log) && past == log[..|log| - 1] && r == log[|log| - 1]
    ensures History(host, first, past) && WentOn(host, |past|, Reached(first, past), r)
  {
  }

  lemma {:induction false} ToldWentOn(host: Host, round: nat, declaredBefore: nat, stopped: bool, before: seq<Block>,
                                      blocks: seq<Block>, left: Option<Batch>, entry: Option<Round>)
    requires Told(host, round, declaredBefore, stopped, before, blocks, None, left, entry)
    ensures entry.Some? && left.None? && WentOn(host, round, before, entry.value) && blocks == AfterRound(entry.value)
  {
  }

  lemma {:induction false} RunToldLast(host: Host, stopped: bool, first: seq<Block>, blocks: seq<Block>,
                                       result: TurnResult, left: Option<Batch>, past: seq<Round>, entry: Option<Round>, log: seq<Round>)
    requires LastTold(host, stopped, first, blocks, result, left, past, entry)
    requires log == if entry.Some? then past + [entry.value] else past
    ensures RunTold(host, stopped, first, blocks, result, left, log)
  {
    if entry.Some? {
      PastLog(past, entry.value);
      assert |log| - 1 == |past|;
    }
  }

  lemma {:induction false} RunEnds(host: Host, round: nat, declaredBefore: nat, stopped: bool, first: seq<Block>,
                                   before: seq<Block>,
                                   blocks: seq<Block>, result: TurnResult, left: Option<Batch>, past: seq<Round>, entry: Option<Round>,
                                   log: seq<Round>)
    requires History(host, first, past) && before == Reached(first, past)
    requires round == |past| && declaredBefore == CallsIn(past)
    requires Told(host, round, declaredBefore, stopped, before, blocks, Some(result), left, entry)
    requires log == if entry.Some? then past + [entry.value] else past
    ensures RunTold(host, stopped, first, blocks, result, left, log)
  {
    RunToldLast(host, stopped, first, blocks, result, left, past, entry, log);
  }

  lemma {:induction false} RunGoesOn(host: Host, round: nat, declaredBefore: nat, stopped: bool, first: seq<Block>,
                                     before: seq<Block>,
                                     blocks: seq<Block>, left: Option<Batch>, past: seq<Round>, entry: Option<Round>, log: seq<Round>)
    requires History(host, first, past) && before == Reached(first, past) && round == |past|
    requires Told(host, round, declaredBefore, stopped, before, blocks, None, left, entry)
    requires log == if entry.Some? then past + [entry.value] else past
    ensures entry.Some? && left.None? && History(host, first, log) && blocks == Reached(first, log)
  {
    ToldWentOn(host, round, declaredBefore, stopped, before, blocks, left, entry);
    HistoryMore(host, first, past, entry.value);
  }
}
