/**
 The assembler keeps, at every step of every trace, exactly what the trace says block by block,
 and it accepts exactly the traces the protocol and the limits allow.
 */
module AnthropicStreamProof {
  import opened Wrappers
  import opened Sequences
  import opened Json
  import opened AnthropicParse
  import opened StreamCommon
  import opened AnthropicStream

  // -- one block ----------------------------------------------------------------------

  lemma {:induction false} PiecesSnoc(ds: seq<Json>, d: Json, p: Piece)
    ensures Pieces(ds + [d], p) == Pieces(ds, p) + if PieceOf(d) == p then PieceText(d) else ""
    ensures HasPiece(ds + [d], p) <==> HasPiece(ds, p) || PieceOf(d) == p
    ensures Citations(ds + [d]) == Citations(ds) + if PieceOf(d).CitationPiece? then [CitationOf(d)] else []
  {
    var all := ds + [d];
    assert all[..|all| - 1] == ds && all[|all| - 1] == d;
    if HasPiece(ds, p) {
      var i :| 0 <= i < |ds| && PieceOf(ds[i]) == p;
      assert PieceOf(all[i]) == p;
    }
    if HasPiece(all, p) && PieceOf(d) != p {
      var i :| 0 <= i < |all| && PieceOf(all[i]) == p;
      assert ds[i] == all[i];
    }
  }

  lemma {:induction false} NoPieces(ds: seq<Json>, p: Piece)
    requires !HasPiece(ds, p)
    ensures Pieces(ds, p) == ""
    ensures p.CitationPiece? ==> Citations(ds) == []
    decreases |ds|
  {
    if ds != [] {
      var past, d := ds[..|ds| - 1], ds[|ds| - 1];
      assert ds == past + [d];
      PiecesSnoc(past, d, p);
      NoPieces(past, p);
    }
  }

  lemma ReadBack(w: Json, k1: string, a: Option<Json>, k2: string, b: Option<Json>)
    requires w.Obj? && k1 != k2
    ensures var r := WriteIf(WriteIf(w, k1, a), k2, b);
            && Get(r, k1) == (if a.Some? then a else Get(w, k1))
            && Get(r, k2) == (if b.Some? then b else Get(w, k2))
            && forall k :: k != k1 && k != k2 ==> Get(r, k) == Get(w, k)
  {
  }

  lemma {:induction false} Overwrite(w: Json, k1: string, a: Option<Json>, k2: string, b: Option<Json>, c: Json)
    requires w.Obj? && k1 != k2
    ensures WithField(WriteIf(WriteIf(w, k1, a), k2, b), k1, c) == WriteIf(WriteIf(w, k1, Some(c)), k2, b)
    ensures WithField(WriteIf(WriteIf(w, k1, a), k2, b), k2, c) == WriteIf(WriteIf(w, k1, a), k2, Some(c))
  {
    var inner := WriteIf(w, k1, a);
    var r := WriteIf(inner, k2, b);
    assert r.fields[k1 := c] == WriteIf(WriteIf(w, k1, Some(c)), k2, b).fields;
    assert r.fields[k2 := c] == inner.fields[k2 := c];
  }

  /** Deltas write neither a block's type, id nor input. */
  lemma {:induction false} RebuiltKeeps(w: Json, ds: seq<Json>, key: string)
    requires key in {"type", "id", "input"}
    ensures Get(RebuiltWire(w, ds), key) == Get(w, key)
  {
    assert key != "text" && key != "thinking" && key != "signature" && key != "citations";
  }

  lemma RebuiltType(w: Json, ds: seq<Json>)
    ensures TypeOf(RebuiltWire(w, ds)) == TypeOf(w)
  {
    RebuiltKeeps(w, ds, "type");
  }

  lemma {:induction false} RebuiltFits(w: Json, ds: seq<Json>, delta: Json)
    requires Openable(w)
    ensures Fits(RebuiltWire(w, ds), delta) <==> Fits(w, delta)
  {
    RebuiltType(w, ds);
    RebuiltKeeps(w, ds, "input");
    assert w.Obj?;
  }

  /** What the field holds so far, read off the pieces. */
  function Sofar(w: Json, ds: seq<Json>, p: Piece): string {
    if HasPiece(ds, p) then TextIn(w, PieceField(p)) + Pieces(ds, p) else TextIn(w, PieceField(p))
  }

  lemma JoinedMore(w: Json, ds: seq<Json>, d: Json)
    ensures Joined(w, ds + [d], PieceOf(d)) == Some(Str(Sofar(w, ds, PieceOf(d)) + PieceText(d)))
  {
    var p := PieceOf(d);
    PiecesSnoc(ds, d, p);
    var head := TextIn(w, PieceField(p));
    if HasPiece(ds, p) {
      assert head + (Pieces(ds, p) + PieceText(d)) == head + Pieces(ds, p) + PieceText(d);
    } else {
      NoPieces(ds, p);
      assert "" + PieceText(d) == PieceText(d);
    }
  }

  lemma JoinedSame(w: Json, ds: seq<Json>, d: Json, q: Piece)
    ensures q != PieceOf(d) ==> Joined(w, ds + [d], q) == Joined(w, ds, q)
    ensures !PieceOf(d).CitationPiece? ==> Cited(w, ds + [d]) == Cited(w, ds)
  {
    PiecesSnoc(ds, d, q);
    PiecesSnoc(ds, d, CitationPiece);
    assert Pieces(ds, q) + "" == Pieces(ds, q) && Citations(ds) + [] == Citations(ds);
  }

  lemma {:induction false} ApplyText(w: Json, ds: seq<Json>, d: Json)
    requires Openable(w) && TypeOf(w).TextBlock? && PieceOf(d).TextPiece?
    ensures Appended(RebuiltWire(w, ds), "text", PieceText(d)) == RebuiltWire(w, ds + [d])
  {
    JoinedMore(w, ds, d);
    JoinedSame(w, ds, d, TextPiece);
    ReadBack(w, "text", Joined(w, ds, TextPiece), "citations", Cited(w, ds));
    Overwrite(w, "text", Joined(w, ds, TextPiece), "citations", Cited(w, ds), Joined(w, ds + [d], TextPiece).value);
  }

  lemma {:induction false} ApplyThought(w: Json, ds: seq<Json>, d: Json)
    requires Openable(w) && TypeOf(w).ThinkingBlock? && (PieceOf(d).ThinkingPiece? || PieceOf(d).SignaturePiece?)
    ensures Appended(RebuiltWire(w, ds), PieceField(PieceOf(d)), PieceText(d)) == RebuiltWire(w, ds + [d])
  {
    JoinedMore(w, ds, d);
    JoinedSame(w, ds, d, ThinkingPiece);
    JoinedSame(w, ds, d, SignaturePiece);
    var thinking, signature := Joined(w, ds, ThinkingPiece), Joined(w, ds, SignaturePiece);
    ReadBack(w, "thinking", thinking, "signature", signature);
    Overwrite(w, "thinking", thinking, "signature", signature, Joined(w, ds + [d], PieceOf(d)).value);
  }

  lemma {:induction false} ApplyCitation(w: Json, ds: seq<Json>, d: Json)
    requires Openable(w) && TypeOf(w).TextBlock? && PieceOf(d).CitationPiece?
    ensures WithField(RebuiltWire(w, ds), "citations", Arr(ItemsIn(RebuiltWire(w, ds), "citations") + [CitationOf(d)]))
            == RebuiltWire(w, ds + [d])
  {
    JoinedSame(w, ds, d, TextPiece);
    PiecesSnoc(ds, d, CitationPiece);
    var items := ItemsIn(w, "citations");
    if !HasPiece(ds, CitationPiece) {
      NoPieces(ds, CitationPiece);
    }
    assert items + Citations(ds) + [CitationOf(d)] == items + (Citations(ds) + [CitationOf(d)]);
    assert items + [] == items;
    ReadBack(w, "text", Joined(w, ds, TextPiece), "citations", Cited(w, ds));
    Overwrite(w, "text", Joined(w, ds, TextPiece), "citations", Cited(w, ds), Cited(w, ds + [d]).value);
  }

  lemma ApplyInput(w: Json, ds: seq<Json>, d: Json)
    requires Fits(w, d) && PieceOf(d).InputPiece?
    ensures RebuiltWire(w, ds + [d]) == RebuiltWire(w, ds)
  {
  }

  /** A delta applied in place is the delta appended to the block's own list. */
  lemma {:induction false} ApplyRebuilt(env: Env, w: Json, callIndex: Option<nat>, ds: seq<Json>, d: Json)
    requires Openable(w) && Fits(w, d)
    ensures Apply(Rebuilt(env, w, callIndex, ds, false), d) == Rebuilt(env, w, callIndex, ds + [d], false)
  {
    PiecesSnoc(ds, d, InputPiece);
    match PieceOf(d)
    case TextPiece => ApplyText(w, ds, d);
    case ThinkingPiece => ApplyThought(w, ds, d);
    case SignaturePiece => ApplyThought(w, ds, d);
    case CitationPiece => ApplyCitation(w, ds, d);
    case InputPiece => ApplyInput(w, ds, d);
    case UnknownPiece =>
  }

  // -- one event ----------------------------------------------------------------------

  /** Reading a trace that is one event longer. */
  lemma Unfold(past: seq<Json>, v: Json)
    ensures var es := past + [v];
            && Starts(es) == (if KindOf(v) == Some(BlockStart) then Starts(past) + [StartWire(v)] else Starts(past))
            && HasStarted(es) == (HasStarted(past) || KindOf(v) == Some(MessageStart))
            && Reason(es) == (if Reason(past).None? && ReasonIn(v).Some? then AsStr(ReasonIn(v)) else Reason(past))
  {
    var es := past + [v];
    assert es[..|es| - 1] == past && es[|es| - 1] == v;
  }

  lemma UnfoldBlock(past: seq<Json>, v: Json, i: nat)
    ensures var es := past + [v];
            && DeltasFor(es, i) == (if Names(v, BlockDelta, i) then DeltasFor(past, i) + [DeltaIn(v)] else DeltasFor(past, i))
            && StopFor(es, i) == (StopFor(past, i) || Names(v, BlockStop, i))
  {
    var es := past + [v];
    assert es[..|es| - 1] == past && es[|es| - 1] == v;
  }

  lemma UnfoldAccounts(env: Env, past: seq<Json>, v: Json)
    requires Accounts(env, past).Some?
    ensures Accounts(env, past + [v]) == AccountsNext(env, Accounts(env, past).value, v)
  {
    var es := past + [v];
    assert es[..|es| - 1] == past && es[|es| - 1] == v;
  }

  /** What legality says about the blocks of a trace. */
  ghost predicate Sound(env: Env, es: seq<Json>) {
    && Affordable(env, es)
    && (forall i :: 0 <= i < |Starts(es)| ==> Openable(Starts(es)[i]))
    && (forall i: nat :: i >= |Starts(es)| ==> DeltasFor(es, i) == [] && !StopFor(es, i))
  }

  lemma {:induction false} LegalIsSound(env: Env, es: seq<Json>)
    requires Legal(env, es)
    ensures Sound(env, es)
    decreases |es|
  {
    if es != [] {
      var past, v := es[..|es| - 1], es[|es| - 1];
      assert es == past + [v];
      LegalIsSound(env, past);
      Unfold(past, v);
      forall i: nat | i >= |Starts(es)| ensures DeltasFor(es, i) == [] && !StopFor(es, i) {
        UnfoldBlock(past, v, i);
      }
    }
  }

  /** An answer to `v` is right: given just when `v` is allowed and affordable, with the trace's next state. */
  predicate Answers(env: Env, past: seq<Json>, v: Json, r: Reaction, allowed: bool) {
    && (r.Ok? <==> allowed && Affordable(env, past + [v]))
    && (r.Ok? ==> r.value.0 == Expected(env, past + [v]))
  }

  /** The machine's answer to `v` is the protocol's, and its next state is the trace's. */
  predicate Agrees(env: Env, past: seq<Json>, v: Json) {
    Answers(env, past, v, Step(env, Expected(env, past), v), Allowed(env, past, v))
  }

  lemma CallIndexStable(ws: seq<Json>, more: seq<Json>, i: nat)
    requires i < |ws|
    ensures CallIndex(ws + more, i) == CallIndex(ws, i)
  {
    assert (ws + more)[..i] == ws[..i];
  }

  /** A block no event names stays as it was. */
  lemma RebuiltAtStable(env: Env, past: seq<Json>, v: Json, i: nat)
    requires i < |Starts(past)| && !Names(v, BlockDelta, i) && !Names(v, BlockStop, i)
    ensures i < |Starts(past + [v])| && RebuiltAt(env, past + [v], i) == RebuiltAt(env, past, i)
  {
    Unfold(past, v);
    UnfoldBlock(past, v, i);
    CallIndexStable(Starts(past), [StartWire(v)], i);
  }

  /** An event that names no block leaves every block as it was. */
  lemma BlocksUntouched(env: Env, past: seq<Json>, v: Json)
    requires KindOf(v) !in {Some(BlockStart), Some(BlockDelta), Some(BlockStop)}
    ensures RebuiltBlocks(env, past + [v]) == RebuiltBlocks(env, past)
  {
    Unfold(past, v);
    forall i: nat | i < |Starts(past)| ensures RebuiltAt(env, past + [v], i) == RebuiltAt(env, past, i) {
      RebuiltAtStable(env, past, v, i);
    }
  }

  function Opened(w: Json, ws: seq<Json>): Block {
    Block(w, "", false, false, false, if TypeOf(w).ToolUseBlock? then Some(ToolCount(ws)) else None)
  }

  lemma {:induction false} RebuiltAtStart(env: Env, past: seq<Json>, v: Json)
    requires KindOf(v) == Some(BlockStart) && Sound(env, past)
    ensures |Starts(past + [v])| == |Starts(past)| + 1
    ensures RebuiltAt(env, past + [v], |Starts(past)|) == Opened(StartWire(v), Starts(past))
  {
    var ws, w := Starts(past), StartWire(v);
    Unfold(past, v);
    UnfoldBlock(past, v, |ws|);
    assert (ws + [w])[..|ws|] == ws;
  }

  lemma BlocksStarted(env: Env, past: seq<Json>, v: Json)
    requires KindOf(v) == Some(BlockStart) && Sound(env, past)
    ensures RebuiltBlocks(env, past + [v]) == RebuiltBlocks(env, past) + [Opened(StartWire(v), Starts(past))]
  {
    Unfold(past, v);
    var n := |Starts(past)|;
    RebuiltAtStart(env, past, v);
    var blocks, before := RebuiltBlocks(env, past + [v]), RebuiltBlocks(env, past);
    forall i: nat | i < n ensures blocks[i] == before[i] {
      RebuiltAtStable(env, past, v, i);
    }
    SnocEqual(blocks, before, Opened(StartWire(v), Starts(past)));
  }

  /** A delta or a stop changes the block it names and no other. */
  lemma {:induction false} BlocksChanged(env: Env, past: seq<Json>, v: Json, i: nat)
    requires Names(v, BlockDelta, i) || Names(v, BlockStop, i)
    requires i < |Starts(past)|
    ensures i < |Starts(past + [v])|
    ensures RebuiltBlocks(env, past + [v]) == RebuiltBlocks(env, past)[i := RebuiltAt(env, past + [v], i)]
  {
    Unfold(past, v);
    forall j: nat | j < |Starts(past)| && j != i
      ensures RebuiltAt(env, past + [v], j) == RebuiltAt(env, past, j)
    {
      RebuiltAtStable(env, past, v, j);
    }
  }

  lemma {:induction false} IdStable(env: Env, es: seq<Json>, i: nat)
    requires i < |Starts(es)|
    ensures StrOf(Wires(RebuiltBlocks(env, es))[i], "id") == StrOf(Starts(es)[i], "id")
  {
    RebuiltKeeps(Starts(es)[i], DeltasFor(es, i), "id");
    assert Wires(RebuiltBlocks(env, es))[i] == RebuiltAt(env, es, i).wire;
    assert "id" != "input";
  }

  lemma {:induction false} IdsStable(env: Env, es: seq<Json>, w: Json)
    ensures IdTaken(Wires(RebuiltBlocks(env, es)), w) <==> IdTaken(Starts(es), w)
  {
    var ws, now := Starts(es), Wires(RebuiltBlocks(env, es));
    forall i: nat | i < |ws| ensures StrOf(now[i], "id") == StrOf(ws[i], "id") {
      IdStable(env, es, i);
    }
  }

  lemma ToolCountSnoc(ws: seq<Json>, w: Json)
    ensures ToolCount(ws + [w]) == ToolCount(ws) + if TypeOf(w).ToolUseBlock? then 1 else 0
  {
    assert (ws + [w])[..|ws|] == ws;
  }

  /** An event without usage charges its cost and leaves the usage alone. */
  lemma {:induction false} CostCharged(env: Env, past: seq<Json>, v: Json)
    requires Accounts(env, past).Some? && UsageIn(v).None?
    ensures var l := Accounts(env, past).value;
            Accounts(env, past + [v]) == Some(l.(bytes := l.bytes + EventCost(env, v)))
  {
    UnfoldAccounts(env, past, v);
  }

  lemma {:induction false} StartExpected(env: Env, past: seq<Json>, v: Json)
    requires KindOf(v) == Some(BlockStart) && Sound(env, past)
    ensures var st, w := Expected(env, past), StartWire(v);
            && (Affordable(env, past + [v]) <==> st.bytes + OpenCost(env, w) <= env.maxOutput)
            && Expected(env, past + [v]) ==
               st.(blocks := st.blocks + [Opened(w, Starts(past))],
                   tools := st.tools + if TypeOf(w).ToolUseBlock? then 1 else 0, bytes := st.bytes + OpenCost(env, w))
  {
    Unfold(past, v);
    CostCharged(env, past, v);
    BlocksStarted(env, past, v);
    ToolCountSnoc(Starts(past), StartWire(v));
  }

  /** A start, read off the state alone. */
  lemma {:induction false} StartAnswer(env: Env, st: State, v: Json, taken: bool, affordable: bool, next: State)
    requires IdTaken(Wires(st.blocks), StartWire(v)) <==> taken
    requires affordable <==> st.bytes + OpenCost(env, StartWire(v)) <= env.maxOutput
    requires var w := StartWire(v);
             var tool := TypeOf(w).ToolUseBlock?;
             next == st.(blocks := st.blocks + [Block(w, "", false, false, false, if tool then Some(st.tools) else None)],
                         tools := st.tools + (if tool then 1 else 0), bytes := st.bytes + OpenCost(env, w))
    ensures var r, w := OnBlockStart(env, st, v), StartWire(v);
            && (r.Ok? <==> && st.started && !st.stopped && |st.blocks| < env.maxItems
                           && AsU64(Get(v, "index")) == Some(|st.blocks|) && Openable(w)
                           && (TypeOf(w).ToolUseBlock? ==> !taken) && affordable)
            && (r.Ok? ==> r.value.0 == next)
  {
  }

  lemma {:induction false} StartAgrees(env: Env, past: seq<Json>, v: Json)
    requires KindOf(v) == Some(BlockStart) && Sound(env, past)
    ensures Answers(env, past, v, OnBlockStart(env, Expected(env, past), v), StartAllowed(env, past, v))
  {
    IdsStable(env, past, StartWire(v));
    StartExpected(env, past, v);
    StartAnswer(env, Expected(env, past), v, IdTaken(Starts(past), StartWire(v)), Affordable(env, past + [v]), Expected(env, past + [v]));
  }

  /** A delta or a stop changes its own block, and a delta costs. */
  lemma {:induction false} ChangeExpected(env: Env, past: seq<Json>, v: Json, i: nat)
    requires Sound(env, past) && i < |Starts(past)| && (Names(v, BlockDelta, i) || Names(v, BlockStop, i))
    ensures i < |Starts(past + [v])|
    ensures var st := Expected(env, past);
            && (Affordable(env, past + [v]) <==> st.bytes + EventCost(env, v) <= env.maxOutput)
            && Expected(env, past + [v]) ==
               st.(blocks := st.blocks[i := RebuiltAt(env, past + [v], i)], bytes := st.bytes + EventCost(env, v))
  {
    Unfold(past, v);
    CostCharged(env, past, v);
    BlocksChanged(env, past, v, i);
  }

  lemma {:induction false} TargetAgrees(env: Env, past: seq<Json>, v: Json)
    ensures Target(Expected(env, past), v) == if OpenIndex(past, v) then AsU64(Get(v, "index")) else None
  {
    var i := AsU64(Get(v, "index"));
    if i.Some? && i.value < |Starts(past)| {
      assert RebuiltBlocks(env, past)[i.value] == RebuiltAt(env, past, i.value);
      assert RebuiltAt(env, past, i.value).closed == StopFor(past, i.value);
    }
  }

  lemma {:induction false} DeltaApplied(env: Env, past: seq<Json>, v: Json)
    requires KindOf(v) == Some(BlockDelta) && Sound(env, past) && OpenIndex(past, v)
    ensures var i := AsU64(Get(v, "index")).value;
            var b := RebuiltAt(env, past, i);
            && (Fits(b.wire, DeltaIn(v)) <==> Fits(Starts(past)[i], DeltaIn(v)))
            && (Fits(b.wire, DeltaIn(v)) ==>
                  i < |Starts(past + [v])| && RebuiltAt(env, past + [v], i) == Apply(b, DeltaIn(v)))
  {
    var i := AsU64(Get(v, "index")).value;
    var w, ds := Starts(past)[i], DeltasFor(past, i);
    RebuiltFits(w, ds, DeltaIn(v));
    if Fits(w, DeltaIn(v)) {
      ApplyRebuilt(env, w, CallIndex(Starts(past), i), ds, DeltaIn(v));
      Unfold(past, v);
      UnfoldBlock(past, v, i);
    }
  }

  /** A delta, read off the state alone. */
  lemma DeltaAnswer(env: Env, st: State, v: Json, i: nat, changed: Block, affordable: bool, next: State)
    requires Target(st, v) == Some(i)
    requires Fits(st.blocks[i].wire, DeltaIn(v)) ==> changed == Apply(st.blocks[i], DeltaIn(v))
    requires affordable <==> st.bytes + DeltaCost(env, DeltaIn(v)) <= env.maxOutput
    requires next == st.(blocks := st.blocks[i := changed], bytes := st.bytes + DeltaCost(env, DeltaIn(v)))
    ensures var r := OnBlockDelta(env, st, v);
            && (r.Ok? <==> Fits(st.blocks[i].wire, DeltaIn(v)) && affordable)
            && (r.Ok? ==> r.value.0 == next)
  {
  }

  lemma {:induction false} DeltaAgrees(env: Env, past: seq<Json>, v: Json)
    requires KindOf(v) == Some(BlockDelta) && Sound(env, past)
    ensures Answers(env, past, v, OnBlockDelta(env, Expected(env, past), v), DeltaAllowed(past, v))
  {
    TargetAgrees(env, past, v);
    if OpenIndex(past, v) {
      var i := AsU64(Get(v, "index")).value;
      DeltaApplied(env, past, v);
      ChangeExpected(env, past, v, i);
      DeltaAnswer(env, Expected(env, past), v, i, RebuiltAt(env, past + [v], i), Affordable(env, past + [v]), Expected(env, past + [v]));
    }
  }

  lemma StopApplied(env: Env, past: seq<Json>, v: Json, i: nat)
    requires Names(v, BlockStop, i) && i < |Starts(past)| && !StopFor(past, i)
    ensures var b, ds := RebuiltAt(env, past, i), DeltasFor(past, i);
            && b.sawArguments == HasPiece(ds, InputPiece) && b.arguments == Pieces(ds, InputPiece)
            && i < |Starts(past + [v])| && RebuiltAt(env, past + [v], i) == Close(env, b)
  {
    Unfold(past, v);
    UnfoldBlock(past, v, i);
  }

  /** A stop, read off the state alone. */
  lemma StopAnswer(env: Env, st: State, v: Json, i: nat, changed: Block, next: State)
    requires Target(st, v) == Some(i) && changed == Close(env, st.blocks[i])
    requires next == st.(blocks := st.blocks[i := changed])
    ensures var r := OnBlockStop(env, st, v);
            && (r.Ok? <==> Closable(env, st.blocks[i].sawArguments, st.blocks[i].arguments))
            && (r.Ok? ==> r.value.0 == next)
  {
  }

  lemma {:induction false} StopAgrees(env: Env, past: seq<Json>, v: Json)
    requires KindOf(v) == Some(BlockStop) && Sound(env, past)
    ensures Answers(env, past, v, OnBlockStop(env, Expected(env, past), v), StopAllowed(env, past, v))
  {
    TargetAgrees(env, past, v);
    if OpenIndex(past, v) {
      var i := AsU64(Get(v, "index")).value;
      StopApplied(env, past, v, i);
      ChangeExpected(env, past, v, i);
      StopAnswer(env, Expected(env, past), v, i, RebuiltAt(env, past + [v], i), Expected(env, past + [v]));
    }
  }

  lemma {:induction false} UsageAgrees(env: Env, past: seq<Json>, v: Json, st: State)
    requires Sound(env, past) && EventCost(env, v) == 0
    requires var l := Accounts(env, past).value; st.usage == l.usage && st.hasUsage == l.hasUsage && st.bytes == l.bytes
    ensures var r := TakeUsage(env, st, UsageIn(v));
            && (r.Ok? <==> Affordable(env, past + [v]))
            && (r.Ok? ==> var l := Accounts(env, past + [v]).value;
                          r.value.0 == st.(usage := l.usage, hasUsage := l.hasUsage, bytes := l.bytes))
  {
    UnfoldAccounts(env, past, v);
  }

  lemma {:induction false} MessageStartAgrees(env: Env, past: seq<Json>, v: Json)
    requires KindOf(v) == Some(MessageStart) && Sound(env, past)
    ensures Answers(env, past, v, OnMessageStart(env, Expected(env, past), v), !HasStarted(past) && GoodMessage(Message(v)))
  {
    Unfold(past, v);
    BlocksUntouched(env, past, v);
    UsageAgrees(env, past, v, Expected(env, past).(started := true));
  }

  lemma ClosedIsStopped(env: Env, es: seq<Json>)
    ensures AllClosed(RebuiltBlocks(env, es)) <==> AllStopped(es)
  {
    var blocks := RebuiltBlocks(env, es);
    assert forall i :: 0 <= i < |blocks| ==> blocks[i].closed == StopFor(es, i);
  }

  lemma {:induction false} MessageDeltaAgrees(env: Env, past: seq<Json>, v: Json)
    requires KindOf(v) == Some(MessageDelta) && Sound(env, past)
    ensures Answers(env, past, v, OnMessageDelta(env, Expected(env, past), v), ReportAllowed(past, v))
  {
    Unfold(past, v);
    BlocksUntouched(env, past, v);
    ClosedIsStopped(env, past);
    var st, reason := Expected(env, past), ReasonIn(v);
    var told := if reason.Some? && reason.value.Str? then st.(stopReason := Some(reason.value.s), stopped := true) else st;
    UsageAgrees(env, past, v, told);
  }

  lemma {:induction false} QuietAgrees(env: Env, past: seq<Json>, v: Json)
    requires KindOf(v) in {None, Some(ErrorEvent), Some(Ping), Some(UnknownEvent)} && Sound(env, past)
    ensures Agrees(env, past, v)
  {
    Unfold(past, v);
    UnfoldAccounts(env, past, v);
    BlocksUntouched(env, past, v);
  }

  lemma {:induction false} EventAgrees(env: Env, past: seq<Json>, v: Json)
    requires KindOf(v) != Some(MessageStop) && Sound(env, past)
    ensures Agrees(env, past, v)
  {
    match KindOf(v)
    case Some(MessageStart) => MessageStartAgrees(env, past, v);
    case Some(BlockStart) => StartAgrees(env, past, v);
    case Some(BlockDelta) => DeltaAgrees(env, past, v);
    case Some(BlockStop) => StopAgrees(env, past, v);
    case Some(MessageDelta) => MessageDeltaAgrees(env, past, v);
    case _ => QuietAgrees(env, past, v);
  }

  /**
   A trace is accepted exactly when it is legal, and the state reached is the one read off the
   trace block by block: neither the interleaving nor where pieces were cut matters.
   */
  lemma {:induction false} TraceAgrees(env: Env, es: seq<Json>)
    requires forall v :: v in es ==> KindOf(v) != Some(MessageStop)
    ensures RunTrace(env, es).Ok? <==> Legal(env, es)
    ensures Legal(env, es) ==> RunTrace(env, es) == Ok(Expected(env, es))
    decreases |es|
  {
    if es == [] {
      assert RebuiltBlocks(env, es) == [];
      assert Expected(env, es) == Initial;
    } else {
      var past, v := es[..|es| - 1], es[|es| - 1];
      assert es == past + [v];
      TraceAgrees(env, past);
      if Legal(env, past) {
        LegalIsSound(env, past);
        EventAgrees(env, past, v);
      }
    }
  }
}
