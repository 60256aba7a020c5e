/**
 The pairing checks over a whole run: if the first frame the model is given passes, when do all the
 frames that follow it pass.
 */
module PairedRuns {
  import opened Wrappers
  import opened Model
  import opened Blocks
  import opened ToolHistory
  import opened ToolSets
  import opened Conversion
  import opened FrameGrowth
  import opened Segments
  import opened RoundSegments
  import opened Requests
  import opened TurnCommit
  import opened TurnStory
  import ChatPairing
  import ChatWire
  import AnthropicPairing

  // -- the rounds of a run --------------------------------------------------------------------------

  /** The model was given a frame that can be sent, and used no call id again. */
  predicate Fair(n: ToolHistory.Names, r: Round) {
    Sendable(n, r.frame) && FreshWireIds(n, r.frame, r.declared)
  }

  predicate AllFair(n: ToolHistory.Names, log: seq<Round>) {
    forall k :: 0 <= k < |log| ==> Fair(n, log[k])
  }

  lemma {:induction false} UniquePrefix(blocks: seq<Block>, more: seq<Block>)
    requires UniqueIds(blocks + more)
    ensures UniqueIds(blocks)
  {
    forall i, j | 0 <= i < j < |blocks| ensures Ids(blocks)[i] != Ids(blocks)[j] {
      assert Ids(blocks + more)[i] == Ids(blocks)[i] && Ids(blocks + more)[j] == Ids(blocks)[j];
    }
  }

  lemma {:induction false} CallsFromModel(host: Host, r: Round)
    requires RepliedWithCalls(host, r)
    ensures (forall i :: 0 <= i < |r.declared| ==> FromModel(host.names.blank, r.declared[i])) && CallsSome(r.declared)
  {
    ConvertedFacts(host.names.blank, r.reply.value.items, StopReason.ToolUse, Ids(r.declared));
  }

  lemma {:induction false} FairIsWhole(n: ToolHistory.Names, r: Round)
    requires Fair(n, r) && Answered(r) && UniqueIds(AfterRound(r))
    requires forall i :: 0 <= i < |r.declared| ==> FromModel(n.blank, r.declared[i])
    ensures WholeRound(n, r.frame, r.declared, r.results) && AfterRound(r) == RoundFrame(r.frame, r.declared, r.results)
    ensures UniqueIds(r.frame)
  {
    UniquePrefix(r.frame + r.declared, OutcomeBlocks(r.results));
    UniquePrefix(r.frame, r.declared);
  }

  lemma {:induction false} UniqueBefore(before: seq<Block>, frame: seq<Block>)
    requires before <= frame && UniqueIds(frame)
    ensures UniqueIds(before)
  {
    assert frame == before + frame[|before|..];
    UniquePrefix(before, frame[|before|..]);
  }

  /** What a frame takes over from the blocks before it. */
  ghost predicate Continues(before: seq<Block>, r: Round) {
    before <= r.frame && ToolChange(before, r.surface, r.frame[|before|..])
  }

  /** A round the run went on from is a whole one. */
  lemma {:induction false} WentOnWhole(host: Host, round: nat, before: seq<Block>, r: Round)
    requires WentOn(host, round, before, r) && Fair(host.names, r) && UniqueIds(AfterRound(r))
    ensures WholeRound(host.names, r.frame, r.declared, r.results) && CallsSome(r.declared)
    ensures AfterRound(r) == RoundFrame(r.frame, r.declared, r.results)
    ensures Continues(before, r) && UniqueIds(before)
  {
    CallsFromModel(host, r);
    FairIsWhole(host.names, r);
    UniqueBefore(before, r.frame);
  }

  lemma FairPast(n: ToolHistory.Names, log: seq<Round>, past: seq<Round>, r: Round)
    requires log != [] && past == log[..|log| - 1] && r == log[|log| - 1] && AllFair(n, log)
    ensures AllFair(n, past) && Fair(n, r) && log == past + [r]
  {
    assert forall k :: 0 <= k < |past| ==> past[k] == log[k];
  }

  /** The last round of a history, and the history before it. */
  lemma {:induction false} LastRound(host: Host, first: seq<Block>, log: seq<Round>) returns (past: seq<Round>, r: Round)
    requires log != [] && History(host, first, log) && AllFair(host.names, log) && UniqueIds(Reached(first, log))
    ensures |past| == |log| - 1 && log == past + [r] && r == log[|past|] && past == log[..|past|]
    ensures History(host, first, past) && AllFair(host.names, past) && UniqueIds(Reached(first, past))
    ensures WholeRound(host.names, r.frame, r.declared, r.results) && CallsSome(r.declared)
            && Continues(Reached(first, past), r)
    ensures Reached(first, log) == RoundFrame(r.frame, r.declared, r.results)
  {
    past, r := log[..|log| - 1], log[|log| - 1];
    FairPast(host.names, log, past, r);
    HistoryLast(host, first, log, past, r);
    WentOnWhole(host, |past|, Reached(first, past), r);
  }

  lemma {:induction false} ChangedFrame(before: seq<Block>, surface: Tools,
                                        frame: seq<Block>)
    returns (change: Option<Block>)
    requires before <= frame && ToolChange(before, surface, frame[|before|..])
    ensures frame == before + (if change.Some? then [change.value] else [])
    ensures change.Some? ==> change.value.content.ToolsChanged?
  {
    var added := frame[|before|..];
    assert frame == before + added;
    if added == [] {
      change := None;
    } else {
      var id :| added == [ChangeBlock(before, surface, id)];
      change := Some(ChangeBlock(before, surface, id));
    }
  }

  lemma {:induction false} FirstContinues(host: Host, first: seq<Block>, log: seq<Round>)
    requires log != [] && History(host, first, log) && AllFair(host.names, log) && UniqueIds(Reached(first, log))
    ensures Continues(first, log[0])
    decreases |log|
  {
    var past, r := LastRound(host, first, log);
    if past != [] {
      FirstContinues(host, first, past);
      assert past[0] == log[0];
    }
  }

  /** The frame of a round that is begun after a history, and may end the run. */
  ghost predicate Begun(host: Host, first: seq<Block>, past: seq<Round>, r: Round) {
    Begins(host, |past|, Reached(first, past), r)
  }

  lemma BegunContinues(host: Host, first: seq<Block>, past: seq<Round>, r: Round)
    requires Begun(host, first, past, r)
    ensures Continues(Reached(first, past), r)
  {
  }

  // -- Chat -------------------------------------------------------------------------------------------

  predicate ChatFit(env: RenderEnv, o: ChatWire.Options, frame: seq<Block>) {
    ChatPaired(ChatMessages(env, o, frame))
  }

  predicate ChatAllFit(env: RenderEnv, o: ChatWire.Options, log: seq<Round>) {
    forall k :: 0 <= k < |log| ==> ChatFit(env, o, log[k].frame)
  }

  predicate ChatAllTogether(env: RenderEnv, o: ChatWire.Options, log: seq<Round>) {
    forall k :: 0 <= k < |log| ==> ChatPairing.CallsTogether(env, o, log[k].frame, log[k].declared)
  }

  /** A frame begun after `before` passes when that does. */
  lemma {:induction false} ChatBegins(env: RenderEnv, o: ChatWire.Options, before: seq<Block>, surface: Tools,
                                      frame: seq<Block>)
    requires before <= frame && ToolChange(before, surface, frame[|before|..])
    ensures ChatFit(env, o, frame) <==> ChatFit(env, o, before)
  {
    var change := ChangedFrame(before, surface, frame);
    if change.Some? {
      ChatPairing.ChangeUnseen(env, o, before, change.value);
    } else {
      assert before + [] == before;
    }
  }

  lemma ChatOneMore(env: RenderEnv, o: ChatWire.Options, past: seq<Round>, r: Round)
    ensures ChatAllTogether(env, o, past + [r])
            <==> ChatAllTogether(env, o, past) && ChatPairing.CallsTogether(env, o, r.frame, r.declared)
    ensures ChatAllFit(env, o, past + [r]) <==> ChatAllFit(env, o, past) && ChatFit(env, o, r.frame)
  {
    var log := past + [r];
    assert log[|past|] == r && forall k :: 0 <= k < |past| ==> log[k] == past[k];
    if ChatAllTogether(env, o, log) {
      forall k | 0 <= k < |past| ensures ChatPairing.CallsTogether(env, o, past[k].frame, past[k].declared) {
        assert log[k] == past[k];
      }
    }
    if ChatAllFit(env, o, log) {
      forall k | 0 <= k < |past| ensures ChatFit(env, o, past[k].frame) {
        assert log[k] == past[k];
      }
    }
  }

  /**
   If the run's first blocks pass, all its frames and what they led to pass exactly when every
   answer kept its calls together.
   */
  lemma {:induction false} ChatHistoryFits(env: RenderEnv, o: ChatWire.Options, host: Host, first: seq<Block>,
                                           log: seq<Round>)
    requires History(host, first, log) && host.names == env.names && AllFair(env.names, log)
    requires UniqueIds(Reached(first, log)) && ChatFit(env, o, first)
    ensures ChatAllTogether(env, o, log) <==> ChatAllFit(env, o, log) && ChatFit(env, o, Reached(first, log))
    decreases |log|
  {
    if log != [] {
      var past, r := LastRound(host, first, log);
      ChatHistoryFits(env, o, host, first, past);
      ChatBegins(env, o, Reached(first, past), r.surface, r.frame);
      ChatOneMore(env, o, past, r);
      if ChatFit(env, o, r.frame) {
        ChatPairing.RoundKeepsPaired(env, o, r.frame, r.declared, r.results);
      }
    }
  }

  /**
   If the first frame of a run passes the Chat check, every frame does exactly when no answer in
   between closes a message that has calls before it ends.
   */
  lemma {:induction false} ChatEveryFrame(env: RenderEnv, o: ChatWire.Options, host: Host, first: seq<Block>,
                                          past: seq<Round>, r: Round)
    requires past != [] && History(host, first, past) && Begun(host, first, past, r) && host.names == env.names
    requires AllFair(env.names, past) && UniqueIds(r.frame) && ChatFit(env, o, past[0].frame)
    ensures ChatAllFit(env, o, past) && ChatFit(env, o, r.frame) <==> ChatAllTogether(env, o, past)
  {
    BegunContinues(host, first, past, r);
    UniqueBefore(Reached(first, past), r.frame);
    FirstContinues(host, first, past);
    ChatBegins(env, o, first, past[0].surface, past[0].frame);
    ChatHistoryFits(env, o, host, first, past);
    ChatBegins(env, o, Reached(first, past), r.surface, r.frame);
  }

  // -- Anthropic ----------------------------------------------------------------------------------------

  /** Each call of the round's answer shows as a tool use, and nothing else in it is a use or a result. */
  predicate Shows(env: RenderEnv, native: bool, r: Round) {
    AnthropicPairing.ShowsCalls(AnthropicPairing.AnswerBlocks(env, r.frame, r.declared, native), DeclaredWires(env.names, r.declared))
  }

  predicate AllShow(env: RenderEnv, native: bool, log: seq<Round>) {
    forall k :: 0 <= k < |log| ==> Shows(env, native, log[k])
  }

  predicate AllFit(env: RenderEnv, native: bool, log: seq<Round>) {
    forall k :: 0 <= k < |log| ==> AnthropicPairing.BodyPaired(env, log[k].frame, native)
  }

  lemma OneMore(env: RenderEnv, native: bool, past: seq<Round>, r: Round)
    ensures AllShow(env, native, past + [r]) <==> AllShow(env, native, past) && Shows(env, native, r)
    ensures AllFit(env, native, past + [r])
            <==> AllFit(env, native, past) && AnthropicPairing.BodyPaired(env, r.frame, native)
  {
    var log := past + [r];
    assert log[|past|] == r && forall k :: 0 <= k < |past| ==> log[k] == past[k];
    if AllShow(env, native, log) {
      forall k | 0 <= k < |past| ensures Shows(env, native, past[k]) {
        assert log[k] == past[k];
      }
    }
    if AllFit(env, native, log) {
      forall k | 0 <= k < |past| ensures AnthropicPairing.BodyPaired(env, past[k].frame, native) {
        assert log[k] == past[k];
      }
    }
  }

  /** A frame begun after a user's message passes when what came before it does. */
  lemma {:induction false} AnthropicBegins(env: RenderEnv, native: bool, before: seq<Block>, r: Round)
    requires Continues(before, r) && AnthropicPairing.EndsWithUser(env, before, native)
    ensures AnthropicPairing.BodyPaired(env, r.frame, native) <==> AnthropicPairing.BodyPaired(env, before, native)
  {
    var change := ChangedFrame(before, r.surface, r.frame);
    if change.Some? {
      AnthropicPairing.ChangeKeepsPaired(env, before, change.value, native);
    } else {
      assert before + [] == before;
    }
  }

  lemma {:induction false} AnthropicRound(env: RenderEnv, native: bool, r: Round, after: seq<Block>)
    requires WholeRound(env.names, r.frame, r.declared, r.results) && CallsSome(r.declared)
    requires AnthropicPairing.BodyPaired(env, r.frame, native) && after == RoundFrame(r.frame, r.declared, r.results)
    ensures AnthropicPairing.EndsWithUser(env, after, native)
    ensures AnthropicPairing.BodyPaired(env, after, native) <==> Shows(env, native, r)
  {
    AnthropicPairing.RoundKeepsPaired(env, r.frame, r.declared, r.results, native);
  }

  /** If the first frame passes, all frames and what they led to pass exactly when every answer shows its calls. */
  lemma {:induction false} AnthropicHistoryFits(env: RenderEnv, native: bool, host: Host, first: seq<Block>,
                                   log: seq<Round>)
    requires log != [] && History(host, first, log) && host.names == env.names && AllFair(env.names, log)
    requires UniqueIds(Reached(first, log)) && AnthropicPairing.BodyPaired(env, log[0].frame, native)
    ensures AllShow(env, native, log)
            <==> AllFit(env, native, log) && AnthropicPairing.BodyPaired(env, Reached(first, log), native)
    ensures AllFit(env, native, log) ==> AnthropicPairing.EndsWithUser(env, Reached(first, log), native)
    decreases |log|
  {
    var past, r := LastRound(host, first, log);
    OneMore(env, native, past, r);
    if past != [] {
      assert past[0] == log[0];
      AnthropicHistoryFits(env, native, host, first, past);
      if AllFit(env, native, past) {
        AnthropicBegins(env, native, Reached(first, past), r);
      }
    }
    if AllFit(env, native, past) && AnthropicPairing.BodyPaired(env, r.frame, native) {
      AnthropicRound(env, native, r, Reached(first, log));
    }
  }

  /**
   If the first frame of a run passes the Anthropic check, every frame does exactly when in each
   answer the calls, and nothing else, show as tool uses and nothing shows as a result.
   */
  lemma {:induction false} AnthropicEveryFrame(env: RenderEnv, native: bool, host: Host, first: seq<Block>,
                                   past: seq<Round>, r: Round)
    requires past != [] && History(host, first, past) && Begun(host, first, past, r) && host.names == env.names
    requires AllFair(env.names, past) && UniqueIds(r.frame) && AnthropicPairing.BodyPaired(env, past[0].frame, native)
    ensures AllFit(env, native, past) && AnthropicPairing.BodyPaired(env, r.frame, native) <==> AllShow(env, native, past)
  {
    BegunContinues(host, first, past, r);
    UniqueBefore(Reached(first, past), r.frame);
    AnthropicHistoryFits(env, native, host, first, past);
    if AllFit(env, native, past) {
      AnthropicBegins(env, native, Reached(first, past), r);
    }
  }
}
