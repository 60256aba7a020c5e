/** What a round adds to a frame's segments: those of the answer, then one for each result. */
module RoundSegments {
  import opened Wrappers
  import opened Sequences
  import opened Json
  import opened Model
  import opened Blocks
  import opened ToolSets
  import opened ToolHistory
  import opened ToolBatches
  import opened Conversion
  import opened FrameGrowth
  import opened Segments

  // -- a longer frame has the segments of a shorter one ---------------------------------------------

  /** None of the added blocks declares a call that a result of the frame answers. */
  predicate AnswersNone(frame: seq<Block>, added: seq<Block>) {
    forall i :: 0 <= i < |frame| && frame[i].content.Outcome? ==> !IsDeclaration(added, frame[i].content.result.callBlockId)
  }

  lemma {:induction false} WireIdStays(n: ToolHistory.Names, blocks: seq<Block>, added: seq<Block>, id: BlockId)
    requires !IsDeclaration(added, id)
    ensures WireIdOf(n, blocks + added, id) == WireIdOf(n, blocks, id)
    decreases |added|
  {
    if added == [] {
      NoneLast(blocks);
    } else {
      var early, last := added[..|added| - 1], added[|added| - 1];
      SplitLast(added);
      DeclarationAppended(early, last, id);
      WireIdStays(n, blocks, early, id);
      Associate(blocks, early, [last]);
      PastOf(blocks + early, last);
    }
  }

  lemma PastOf<T>(past: seq<T>, last: T)
    ensures (past + [last])[..|past + [last]| - 1] == past && (past + [last])[|past + [last]| - 1] == last
  {
  }

  lemma {:induction false} BlockStays(env: RenderEnv, frame: seq<Block>, added: seq<Block>, i: nat, format: string,
                                      inPlace: bool)
    requires i < |frame| && AnswersNone(frame, added)
    ensures BlockSegments(env, frame + added, i, format, inPlace) == BlockSegments(env, frame, i, format, inPlace)
  {
    assert (frame + added)[..i] == frame[..i] && (frame + added)[i] == frame[i];
    if frame[i].content.Outcome? {
      WireIdStays(env.names, frame, added, frame[i].content.result.callBlockId);
    }
  }

  lemma {:induction false} SameSegments(env: RenderEnv, all: seq<Block>, frame: seq<Block>, lo: nat, hi: nat,
                                        format: string,
                                        inPlace: bool)
    requires lo <= hi <= |frame| <= |all|
    requires forall i :: lo <= i < hi ==>
                           BlockSegments(env, all, i, format, inPlace) == BlockSegments(env, frame, i, format, inPlace)
    ensures SegmentsOf(env, all, lo, hi, format, inPlace) == SegmentsOf(env, frame, lo, hi, format, inPlace)
    decreases hi
  {
    if lo < hi {
      SameSegments(env, all, frame, lo, hi - 1, format, inPlace);
    }
  }

  lemma {:induction false} SegmentsStay(env: RenderEnv, frame: seq<Block>, added: seq<Block>, lo: nat, hi: nat,
                                        format: string,
                                        inPlace: bool)
    requires lo <= hi <= |frame| && AnswersNone(frame, added)
    ensures SegmentsOf(env, frame + added, lo, hi, format, inPlace) == SegmentsOf(env, frame, lo, hi, format, inPlace)
  {
    forall i | lo <= i < hi
      ensures BlockSegments(env, frame + added, i, format, inPlace) == BlockSegments(env, frame, i, format, inPlace)
    {
      BlockStays(env, frame, added, i, format, inPlace);
    }
    SameSegments(env, frame + added, frame, lo, hi, format, inPlace);
  }

  /** In a sendable frame results answer the frame's own calls. */
  lemma {:induction false} OwnAnswers(n: ToolHistory.Names, frame: seq<Block>, added: seq<Block>)
    requires InOrder(n, frame) && UniqueIds(frame + added)
    ensures AnswersNone(frame, added)
  {
    forall i | 0 <= i < |frame| && frame[i].content.Outcome? ensures !IsDeclaration(added, frame[i].content.result.callBlockId) {
      assert MayFollow(n, frame[..i], frame[i]);
      var j :| 0 <= j < i && frame[..i][j].content.Declaration? && frame[..i][j].id == frame[i].content.result.callBlockId;
      var all := frame + added;
      forall k | 0 <= k < |added| ensures added[k].id != frame[j].id {
        assert Ids(all)[j] == frame[j].id && Ids(all)[|frame| + k] == added[k].id;
      }
    }
  }

  // -- the answer -------------------------------------------------------------------------------------

  /** Segments an answer may have. */
  predicate OfAssistant(s: Segment) {
    match s
    case TextSegment(role, _, _, _, _) => role.Assistant?
    case SealedSegment(_) => true
    case MediaSegment(role, media, _) => role.Assistant? && media.Placeholder?
    case CallSegment(_, _, _, _) => true
    case _ => false
  }

  predicate AllOfAssistant(segments: seq<Segment>) {
    forall k :: 0 <= k < |segments| ==> OfAssistant(segments[k])
  }

  /** The wire ids of the calls among the segments. */
  function Called(segments: seq<Segment>): (ids: set<string>)
    ensures forall k :: 0 <= k < |segments| && segments[k].CallSegment? ==> segments[k].wireId in ids
  {
    set k | 0 <= k < |segments| && segments[k].CallSegment? :: segments[k].wireId
  }

  lemma CalledJoins(a: seq<Segment>, b: seq<Segment>)
    ensures Called(a + b) == Called(a) + Called(b)
  {
    var all := a + b;
    forall id ensures id in Called(all) <==> id in Called(a) + Called(b) {
      if id in Called(all) {
        var k :| 0 <= k < |all| && all[k].CallSegment? && all[k].wireId == id;
        assert if k < |a| then all[k] == a[k] else all[k] == b[k - |a|];
      }
      if id in Called(a) {
        var k :| 0 <= k < |a| && a[k].CallSegment? && a[k].wireId == id;
        assert all[k] == a[k];
      }
      if id in Called(b) {
        var k :| 0 <= k < |b| && b[k].CallSegment? && b[k].wireId == id;
        assert all[|a| + k] == b[k];
      }
    }
  }

  function DeclaredWires(n: ToolHistory.Names, declared: seq<Block>): set<string> {
    set i | 0 <= i < |declared| && declared[i].content.Declaration? :: WireId(n, declared[i])
  }

  lemma {:induction false} AssistantParts(env: RenderEnv, parts: seq<ContentPart>, k: nat, i: nat, wire: Option<Json>,
                                          format: string)
    requires k <= |parts|
    ensures AllOfAssistant(PartSegments(env, Assistant, parts, k, i, wire, format))
    ensures Called(PartSegments(env, Assistant, parts, k, i, wire, format)) == {}
    decreases k
  {
    if k > 0 {
      AssistantParts(env, parts, k - 1, i, wire, format);
      CalledJoins(PartSegments(env, Assistant, parts, k - 1, i, wire, format),
                  PartSegment(env, Assistant, parts[k - 1], i, |parts|, wire, format));
    }
  }

  lemma {:induction false} AnswerBlock(env: RenderEnv, all: seq<Block>, i: nat, format: string, inPlace: bool)
    requires i < |all| && FromModel(env.names.blank, all[i])
    ensures var s := BlockSegments(env, all, i, format, inPlace);
            && AllOfAssistant(s)
            && Called(s) == (if all[i].content.Declaration? then {WireId(env.names, all[i])} else {})
  {
    match all[i].content
    case Message(_, parts) => AssistantParts(env, parts, |parts|, i, OwnWire(all[i], format), format);
    case Declaration(_) =>
      assert BlockSegments(env, all, i, format, inPlace)[0].wireId == WireId(env.names, all[i]);
  }

  /** An answer's blocks give assistant segments, with its calls under their wire ids. */
  lemma {:induction false} AnswerSegments(env: RenderEnv, frame: seq<Block>, declared: seq<Block>, k: nat,
                                          format: string, inPlace: bool)
    requires k <= |declared| && forall i :: 0 <= i < |declared| ==> FromModel(env.names.blank, declared[i])
    ensures var s := SegmentsOf(env, frame + declared, |frame|, |frame| + k, format, inPlace);
            AllOfAssistant(s) && Called(s) == DeclaredWires(env.names, declared[..k])
    decreases k
  {
    var all := frame + declared;
    if k > 0 {
      AnswerSegments(env, frame, declared, k - 1, format, inPlace);
      var at := |frame| + k - 1;
      assert all[at] == declared[k - 1];
      AnswerBlock(env, all, at, format, inPlace);
      CalledJoins(SegmentsOf(env, all, |frame|, at, format, inPlace), BlockSegments(env, all, at, format, inPlace));
      WiresMore(env.names, declared, k - 1);
    }
  }

  lemma WiresMore(n: ToolHistory.Names, declared: seq<Block>, k: nat)
    requires k < |declared|
    ensures DeclaredWires(n, declared[..k + 1]) ==
            DeclaredWires(n, declared[..k]) + (if declared[k].content.Declaration? then {WireId(n, declared[k])} else {})
  {
    var now, next := declared[..k], declared[..k + 1];
    forall w ensures w in DeclaredWires(n, next) <==>
                     w in DeclaredWires(n, now) || (declared[k].content.Declaration? && w == WireId(n, declared[k])) {
      if w in DeclaredWires(n, next) {
        var i :| 0 <= i < |next| && next[i].content.Declaration? && WireId(n, next[i]) == w;
        assert i < k ==> now[i] == next[i];
      }
      if w in DeclaredWires(n, now) {
        var i :| 0 <= i < |now| && now[i].content.Declaration? && WireId(n, now[i]) == w;
        assert next[i] == now[i];
      }
      assert next[k] == declared[k];
    }
  }

  // -- the results --------------------------------------------------------------------------------------

  function ResultSegmentOf(env: RenderEnv, all: seq<Block>, r: Recorded): Segment {
    var wireId := WireIdOf(env.names, all, r.payload.callBlockId);
    ResultSegment(if wireId.Some? then wireId.value else "", r.payload.status,
                  ObservationText(env.codec, r.payload.output.content), r.payload.notes, ResolveAll(env, r.payload.media))
  }

  function ResultSegments(env: RenderEnv, all: seq<Block>, results: seq<Recorded>): (s: seq<Segment>)
    ensures |s| == |results|
    ensures forall k :: 0 <= k < |s| ==> s[k] == ResultSegmentOf(env, all, results[k]) && s[k].ResultSegment?
  {
    seq(|results|, k requires 0 <= k < |results| => ResultSegmentOf(env, all, results[k]))
  }

  lemma {:induction false} OutcomeSegments(env: RenderEnv, all: seq<Block>, i: nat, r: Recorded, format: string,
                                           inPlace: bool)
    requires i < |all| && all[i] == Block(r.id, Outcome(r.payload), NoMeta)
    ensures BlockSegments(env, all, i, format, inPlace) == [ResultSegmentOf(env, all, r)]
  {
  }

  lemma {:induction false} ResultSegmentsMore(env: RenderEnv, all: seq<Block>, results: seq<Recorded>, k: nat)
    requires k < |results|
    ensures ResultSegments(env, all, results[..k + 1]) ==
            ResultSegments(env, all, results[..k]) + [ResultSegmentOf(env, all, results[k])]
  {
  }

  lemma {:induction false} ResultsSegments(env: RenderEnv, before: seq<Block>, results: seq<Recorded>, k: nat,
                                           format: string, inPlace: bool)
    requires k <= |results|
    ensures var all := before + OutcomeBlocks(results);
            SegmentsOf(env, all, |before|, |before| + k, format, inPlace) == ResultSegments(env, all, results[..k])
    decreases k
  {
    var all := before + OutcomeBlocks(results);
    if k > 0 {
      ResultsSegments(env, before, results, k - 1, format, inPlace);
      assert all[|before| + k - 1] == OutcomeBlocks(results)[k - 1];
      OutcomeSegments(env, all, |before| + k - 1, results[k - 1], format, inPlace);
      ResultSegmentsMore(env, all, results, k - 1);
    }
  }

  function WiresOf(env: RenderEnv, all: seq<Block>, results: seq<Recorded>): (ids: seq<string>)
    ensures |ids| == |results| && forall k :: 0 <= k < |ids| ==> ids[k] == ResultSegmentOf(env, all, results[k]).wireId
  {
    seq(|results|, k requires 0 <= k < |results| => ResultSegmentOf(env, all, results[k]).wireId)
  }

  /** A whole round: an answer of the model's, and results for exactly its calls. */
  ghost predicate WholeRound(n: ToolHistory.Names, frame: seq<Block>, declared: seq<Block>, results: seq<Recorded>) {
    && Sendable(n, frame) && FreshWireIds(n, frame, declared) && UniqueIds(frame + declared)
    && (forall i :: 0 <= i < |declared| ==> FromModel(n.blank, declared[i]))
    && Appendable(frame + declared, results)
    && (forall id :: Declares(declared, id) ==> AnswersCall(results, id))
  }

  /** The results are for calls of this round. */
  lemma {:induction false} ResultsAreOwn(n: ToolHistory.Names, frame: seq<Block>, declared: seq<Block>,
                                         results: seq<Recorded>, k: nat)
    returns (j: nat)
    requires WholeRound(n, frame, declared, results) && k < |results|
    ensures j < |declared| && declared[j].content.Declaration? && declared[j].id == results[k].payload.callBlockId
  {
    var id, all := results[k].payload.callBlockId, frame + declared;
    var i :| 0 <= i < |all| && all[i].content.Declaration? && all[i].id == id;
    if i < |frame| {
      assert all[i] == frame[i] && IsCompleted(frame, id);
      SilentComplete(frame, declared, id);
      assert false;
    }
    j := i - |frame|;
    assert all[i] == declared[j];
  }

  lemma {:induction false} FindsWire(n: ToolHistory.Names, frame: seq<Block>, declared: seq<Block>,
                                     results: seq<Recorded>, j: nat)
    requires WholeRound(n, frame, declared, results) && j < |declared| && declared[j].content.Declaration?
    ensures WireIdOf(n, frame + declared + OutcomeBlocks(results), declared[j].id) == Some(WireId(n, declared[j]))
  {
    var all := frame + declared;
    WireIdStays(n, all, OutcomeBlocks(results), declared[j].id);
    ResultsFindCalls(n, all, declared[j].id);
    assert all[|frame| + j] == declared[j];
    assert IsDeclaration(all, declared[j].id);
    var i :| 0 <= i < |all| && all[i].content.Declaration? && all[i].id == declared[j].id
             && WireIdOf(n, all, declared[j].id).value == WireId(n, all[i]);
    assert Ids(all)[i] == Ids(all)[|frame| + j];
  }

  lemma {:induction false} WiresDiffer(n: ToolHistory.Names, frame: seq<Block>, declared: seq<Block>, i: nat, j: nat)
    requires FreshWireIds(n, frame, declared) && i < j < |declared|
    requires declared[i].content.Declaration? && declared[j].content.Declaration?
    ensures WireId(n, declared[i]) != WireId(n, declared[j])
  {
    var past := frame + declared[..j];
    assert past[|frame| + i] == declared[i];
    assert !HasWireId(n, past, WireId(n, declared[j]));
  }

  lemma {:induction false} ResultsApart(env: RenderEnv, frame: seq<Block>, declared: seq<Block>,
                                        results: seq<Recorded>, k: nat, m: nat)
    requires WholeRound(env.names, frame, declared, results) && k < m < |results|
    ensures var ids := WiresOf(env, frame + declared + OutcomeBlocks(results), results); ids[k] != ids[m]
  {
    var n := env.names;
    var i := ResultsAreOwn(n, frame, declared, results, k);
    var j := ResultsAreOwn(n, frame, declared, results, m);
    FindsWire(n, frame, declared, results, i);
    FindsWire(n, frame, declared, results, j);
    if i < j {
      WiresDiffer(n, frame, declared, i, j);
    } else {
      WiresDiffer(n, frame, declared, j, i);
    }
  }

  /** The results stand under the wire ids of the round's calls, each once. */
  lemma {:induction false} ResultsCover(env: RenderEnv, frame: seq<Block>, declared: seq<Block>, results: seq<Recorded>)
    requires WholeRound(env.names, frame, declared, results)
    ensures Exactly(WiresOf(env, frame + declared + OutcomeBlocks(results), results), DeclaredWires(env.names, declared))
  {
    var n, all := env.names, frame + declared + OutcomeBlocks(results);
    var ids := WiresOf(env, all, results);
    forall k | 0 <= k < |ids| ensures ids[k] in DeclaredWires(n, declared) {
      var j := ResultsAreOwn(n, frame, declared, results, k);
      FindsWire(n, frame, declared, results, j);
    }
    forall k, m | 0 <= k < m < |ids| ensures ids[k] != ids[m] {
      ResultsApart(env, frame, declared, results, k, m);
    }
    forall w | w in DeclaredWires(n, declared) ensures w in ids {
      var j :| 0 <= j < |declared| && declared[j].content.Declaration? && WireId(n, declared[j]) == w;
      assert Declares(declared, declared[j].id);
      var k :| 0 <= k < |results| && results[k].payload.callBlockId == declared[j].id;
      FindsWire(n, frame, declared, results, j);
      assert ids[k] == w;
    }
  }

  function RoundFrame(frame: seq<Block>, declared: seq<Block>, results: seq<Recorded>): seq<Block> {
    frame + declared + OutcomeBlocks(results)
  }

  /** The segments a round adds: its answer's, then its results'. */
  function AnswerPart(env: RenderEnv, frame: seq<Block>, declared: seq<Block>, format: string,
                      inPlace: bool): seq<Segment> {
    SegmentsOf(env, frame + declared, |frame|, |frame + declared|, format, inPlace)
  }

  lemma {:induction false} AnswerFrame(env: RenderEnv, frame: seq<Block>, declared: seq<Block>, format: string,
                                       inPlace: bool)
    requires AnswersNone(frame, declared)
    ensures SegmentsOf(env, frame + declared, 0, |frame + declared|, format, inPlace) ==
            SegmentsOf(env, frame, 0, |frame|, format, inPlace) + AnswerPart(env, frame, declared, format, inPlace)
  {
    SegmentsStay(env, frame, declared, 0, |frame|, format, inPlace);
    SegmentsJoin(env, frame + declared, 0, |frame|, |frame + declared|, format, inPlace);
  }

  lemma {:induction false} RoundFrameSegments(env: RenderEnv, frame: seq<Block>, declared: seq<Block>,
                                   results: seq<Recorded>,
                                              format: string, inPlace: bool)
    requires AnswersNone(frame, declared)
    ensures var all := RoundFrame(frame, declared, results);
            SegmentsOf(env, all, 0, |all|, format, inPlace) ==
            SegmentsOf(env, frame, 0, |frame|, format, inPlace) + AnswerPart(env, frame, declared, format, inPlace)
            + ResultSegments(env, all, results)
  {
    var middle, outcomes := frame + declared, OutcomeBlocks(results);
    var all := middle + outcomes;
    AnswerFrame(env, frame, declared, format, inPlace);
    SegmentsStay(env, middle, outcomes, 0, |middle|, format, inPlace);
    SegmentsJoin(env, all, 0, |middle|, |all|, format, inPlace);
    ResultsSegments(env, middle, results, |results|, format, inPlace);
    assert results[..|results|] == results && |all| == |middle| + |results|;
  }

  lemma {:induction false} AnswerPartFacts(env: RenderEnv, frame: seq<Block>, declared: seq<Block>, format: string,
                                           inPlace: bool)
    requires forall i :: 0 <= i < |declared| ==> FromModel(env.names.blank, declared[i])
    ensures var answer := AnswerPart(env, frame, declared, format, inPlace);
            AllOfAssistant(answer) && Called(answer) == DeclaredWires(env.names, declared)
  {
    AnswerSegments(env, frame, declared, |declared|, format, inPlace);
    assert declared[..|declared|] == declared && |frame + declared| == |frame| + |declared|;
  }

  lemma {:induction false} RoundAdds(env: RenderEnv, frame: seq<Block>, declared: seq<Block>, results: seq<Recorded>,
                                     format: string,
                                     inPlace: bool)
    requires WholeRound(env.names, frame, declared, results)
    ensures var all, answer := RoundFrame(frame, declared, results), AnswerPart(env, frame, declared, format, inPlace);
            && SegmentsOf(env, all, 0, |all|, format, inPlace) ==
               SegmentsOf(env, frame, 0, |frame|, format, inPlace) + answer + ResultSegments(env, all, results)
            && AllOfAssistant(answer) && Called(answer) == DeclaredWires(env.names, declared)
            && Exactly(WiresOf(env, all, results), Called(answer)) && AnswersNone(frame, declared)
  {
    OwnAnswers(env.names, frame, declared);
    RoundFrameSegments(env, frame, declared, results, format, inPlace);
    AnswerPartFacts(env, frame, declared, format, inPlace);
    ResultsCover(env, frame, declared, results);
  }

  /** The answer calls at least one tool. */
  predicate CallsSome(declared: seq<Block>) {
    exists i :: 0 <= i < |declared| && declared[i].content.Declaration?
  }

  lemma {:induction false} SomeAnswered(n: ToolHistory.Names, declared: seq<Block>, results: seq<Recorded>)
    requires CallsSome(declared) && forall id :: Declares(declared, id) ==> AnswersCall(results, id)
    ensures results != [] && DeclaredWires(n, declared) != {}
  {
    var i :| 0 <= i < |declared| && declared[i].content.Declaration?;
    assert Declares(declared, declared[i].id) && AnswersCall(results, declared[i].id);
    assert WireId(n, declared[i]) in DeclaredWires(n, declared);
  }

  /** A tool change adds its own segment, if it is shown. */
  lemma {:induction false} ChangeAdds(env: RenderEnv, frame: seq<Block>, b: Block, format: string, inPlace: bool)
    requires b.content.ToolsChanged?
    ensures var all := frame + [b];
            SegmentsOf(env, all, 0, |all|, format, inPlace) ==
            SegmentsOf(env, frame, 0, |frame|, format, inPlace)
            + (if inPlace && ChangesOf(frame) != [] then [ChangeSegment(b.content.change)] else [])
  {
    var all := frame + [b];
    assert AnswersNone(frame, [b]);
    SegmentsStay(env, frame, [b], 0, |frame|, format, inPlace);
    assert |all| == |frame| + 1 && all[|frame|] == b && all[..|frame|] == frame;
  }
}
