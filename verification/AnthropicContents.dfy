/**
 What each content block of an Anthropic stream comes to, read off the events as they stand in
 the JSON: the block as it began, with the pieces the events of its index carry.
 */
module AnthropicContents {
  import opened Wrappers
  import opened Sequences
  import opened Json
  import opened StreamCommon
  import opened AnthropicStream
  import opened AnthropicStreamProof
  import opened AnthropicDeltas
  import opened AnthropicProtocol
  import AnthropicStreamEnd

  /** The pieces of one type the events of an index carry, in order. */
  function PiecesAt(es: seq<Json>, index: Option<Json>, name: string, field: string): seq<string>
    decreases |es|
  {
    if es == [] then []
    else
      var past, v := PiecesAt(es[..|es| - 1], index, name, field), es[|es| - 1];
      if Continues(v, name) && Get(v, "index") == index then past + [TextIn(Member(v, "delta"), field)] else past
  }

  /** The citations the events of an index carry, in order. */
  function CitationsAt(es: seq<Json>, index: Option<Json>): seq<Json>
    decreases |es|
  {
    if es == [] then []
    else
      var past, v := CitationsAt(es[..|es| - 1], index), es[|es| - 1];
      if Continues(v, "citations_delta") && Get(v, "index") == index
      then past + [Member(Member(v, "delta"), "citation")] else past
  }

  function ListIn(v: Json, key: string): seq<Json> {
    match Get(v, key)
    case Some(Arr(items)) => items
    case _ => []
  }

  /** A member with its pieces behind what the start carried. */
  function WithPieces(start: Json, key: string, pieces: seq<string>): Option<Json> {
    if pieces == [] then Get(start, key) else Some(Str(TextIn(start, key) + Concat(pieces)))
  }

  function WithCitations(start: Json, citations: seq<Json>): Option<Json> {
    if citations == [] then Get(start, "citations") else Some(Arr(ListIn(start, "citations") + citations))
  }

  /** Arguments that arrived in pieces replace the input once the block has stopped and they parse. */
  function InputAfter(env: Env, start: Json, pieces: seq<string>, stopped: bool): Option<Json> {
    if stopped && pieces != [] && env.codec.parse(Concat(pieces)).Some? then env.codec.parse(Concat(pieces))
    else Get(start, "input")
  }

  /** What the member `key` of block `i` must be. */
  function MemberAfter(env: Env, es: seq<Json>, start: Json, i: nat, key: string): Option<Json> {
    var at := Some(Int(i));
    if key == "text" && Typed(start, "text") then WithPieces(start, key, PiecesAt(es, at, "text_delta", "text"))
    else if key == "citations" && Typed(start, "text") then WithCitations(start, CitationsAt(es, at))
    else if key == "thinking" && Typed(start, "thinking") then
      WithPieces(start, key, PiecesAt(es, at, "thinking_delta", "thinking"))
    else if key == "signature" && Typed(start, "thinking") then
      WithPieces(start, key, PiecesAt(es, at, "signature_delta", "signature"))
    else if key == "input" then InputAfter(env, start, ArgumentsAt(es, at), BlockStopped(es, i))
    else Get(start, key)
  }

  // -- the pieces are the deltas' ------------------------------------------------------------------

  predicate Spelled(p: Piece, name: string, field: string) {
    match p
    case TextPiece => name == "text_delta" && field == "text"
    case ThinkingPiece => name == "thinking_delta" && field == "thinking"
    case SignaturePiece => name == "signature_delta" && field == "signature"
    case _ => false
  }

  lemma SpelledSo(d: Json, p: Piece, name: string, field: string)
    requires Spelled(p, name, field)
    ensures PieceOf(d) == p <==> Typed(d, name)
    ensures PieceOf(d) == p ==> PieceText(d) == TextIn(d, field)
  {
    PieceKinds(d);
  }

  lemma {:induction false} PiecesStep(past: seq<Json>, v: Json, i: nat, p: Piece, name: string, field: string)
    requires i <= MAX_U64 && Spelled(p, name, field)
    ensures PiecesAt(past + [v], IndexOfBlock(i), name, field) ==
            PiecesAt(past, IndexOfBlock(i), name, field) +
            if Names(v, BlockDelta, i) && PieceOf(DeltaIn(v)) == p then [PieceText(DeltaIn(v))] else []
  {
    var es := past + [v];
    assert es[..|es| - 1] == past && es[|es| - 1] == v;
    EventKinds(v);
    SpelledSo(DeltaIn(v), p, name, field);
    NamesRead(v, i);
    NoneLast(PiecesAt(past, IndexOfBlock(i), name, field));
  }

  lemma {:induction false} PiecesRead(es: seq<Json>, i: nat, p: Piece, name: string, field: string)
    requires i <= MAX_U64 && Spelled(p, name, field)
    ensures Concat(PiecesAt(es, IndexOfBlock(i), name, field)) == Pieces(DeltasFor(es, i), p)
    ensures PiecesAt(es, IndexOfBlock(i), name, field) != [] <==> HasPiece(DeltasFor(es, i), p)
    decreases |es|
  {
    if es != [] {
      var past, v := es[..|es| - 1], es[|es| - 1];
      SplitLast(es);
      PiecesRead(past, i, p, name, field);
      PiecesStep(past, v, i, p, name, field);
      UnfoldBlock(past, v, i);
      PiecesSnoc(DeltasFor(past, i), DeltaIn(v), p);
      ConcatSnoc(PiecesAt(past, IndexOfBlock(i), name, field), PieceText(DeltaIn(v)));
      NoneLast(PiecesAt(past, IndexOfBlock(i), name, field));
      NoneLast(Pieces(DeltasFor(past, i), p));
    }
  }

  lemma {:induction false} CitationsStep(past: seq<Json>, v: Json, i: nat)
    requires i <= MAX_U64
    ensures CitationsAt(past + [v], IndexOfBlock(i)) ==
            CitationsAt(past, IndexOfBlock(i)) +
            if Names(v, BlockDelta, i) && PieceOf(DeltaIn(v)) == CitationPiece then [CitationOf(DeltaIn(v))] else []
  {
    var es := past + [v];
    assert es[..|es| - 1] == past && es[|es| - 1] == v;
    EventKinds(v);
    PieceKinds(DeltaIn(v));
    NamesRead(v, i);
    NoneLast(CitationsAt(past, IndexOfBlock(i)));
  }

  lemma {:induction false} CitationsRead(es: seq<Json>, i: nat)
    requires i <= MAX_U64
    ensures CitationsAt(es, IndexOfBlock(i)) == Citations(DeltasFor(es, i))
    ensures CitationsAt(es, IndexOfBlock(i)) != [] <==> HasPiece(DeltasFor(es, i), CitationPiece)
    decreases |es|
  {
    if es != [] {
      var past, v := es[..|es| - 1], es[|es| - 1];
      SplitLast(es);
      CitationsRead(past, i);
      CitationsStep(past, v, i);
      UnfoldBlock(past, v, i);
      PiecesSnoc(DeltasFor(past, i), DeltaIn(v), CitationPiece);
      NoneLast(CitationsAt(past, IndexOfBlock(i)));
    }
  }

  // -- a block -----------------------------------------------------------------------------------------

  lemma {:induction false} TextMember(es: seq<Json>, w: Json, i: nat, p: Piece, name: string, field: string)
    requires i <= MAX_U64 && Spelled(p, name, field)
    ensures WithPieces(w, field, PiecesAt(es, IndexOfBlock(i), name, field)) ==
            if Joined(w, DeltasFor(es, i), p).Some? then Joined(w, DeltasFor(es, i), p) else Get(w, field)
  {
    PiecesRead(es, i, p, name, field);
    assert PieceField(p) == field;
  }

  lemma {:induction false} CitedMember(es: seq<Json>, w: Json, i: nat)
    requires i <= MAX_U64
    ensures WithCitations(w, CitationsAt(es, IndexOfBlock(i))) ==
            if Cited(w, DeltasFor(es, i)).Some? then Cited(w, DeltasFor(es, i)) else Get(w, "citations")
  {
    CitationsRead(es, i);
  }

  /** The members of a block before it stops. */
  lemma {:induction false} OpenMember(env: Env, es: seq<Json>, w: Json, i: nat, key: string)
    requires i <= MAX_U64 && Openable(w)
    ensures Get(RebuiltWire(w, DeltasFor(es, i)), key) ==
            if key == "input" then Get(w, key) else MemberAfter(env, es, w, i, key)
  {
    var ds := DeltasFor(es, i);
    AnthropicDeltas.BlockKinds(w);
    RebuiltKeeps(w, ds, "input");
    if Typed(w, "text") {
      TextMember(es, w, i, TextPiece, "text_delta", "text");
      CitedMember(es, w, i);
      ReadBack(w, "text", Joined(w, ds, TextPiece), "citations", Cited(w, ds));
    } else if Typed(w, "thinking") {
      TextMember(es, w, i, ThinkingPiece, "thinking_delta", "thinking");
      TextMember(es, w, i, SignaturePiece, "signature_delta", "signature");
      ReadBack(w, "thinking", Joined(w, ds, ThinkingPiece), "signature", Joined(w, ds, SignaturePiece));
    }
  }

  lemma ClosedMember(env: Env, b: Block, key: string)
    requires b.wire.Obj?
    ensures Get(Close(env, b).wire, key) ==
            if key == "input" && b.sawArguments && env.codec.parse(b.arguments).Some? then env.codec.parse(b.arguments)
            else Get(b.wire, key)
  {
  }

  lemma {:induction false} BlockMember(env: Env, es: seq<Json>, i: nat, key: string)
    requires Legal(env, es) && i < |Starts(es)|
    ensures Get(RebuiltAt(env, es, i).wire, key) == MemberAfter(env, es, Starts(es)[i], i, key)
  {
    var w, ds := Starts(es)[i], DeltasFor(es, i);
    LegalIsSound(env, es);
    StartsBounded(env, es);
    StoppedSo(es, i);
    ArgumentsRead(env, es, i);
    OpenMember(env, es, w, i, key);
    assert "input" != "text" && "input" != "citations" && "input" != "thinking" && "input" != "signature";
    var open := AnthropicStream.Block(RebuiltWire(w, ds), Pieces(ds, InputPiece), HasPiece(ds, InputPiece), false, false,
                                      CallIndex(Starts(es), i));
    ClosedMember(env, open, key);
    OpenMember(env, es, w, i, "input");
  }

  /**
   After a legal trace the assembler holds a block for each one begun, and every member of it is
   the one the block began with, with its pieces in the order they came.
   */
  lemma {:induction false} BlocksTell(env: Env, es: seq<Json>)
    requires Legal(env, es)
    ensures RunTrace(env, es).Ok? && |RunTrace(env, es).value.blocks| == |BlocksBegun(es)|
    ensures forall i: nat, key :: i < |BlocksBegun(es)| ==>
              Get(RunTrace(env, es).value.blocks[i].wire, key) == MemberAfter(env, es, BlocksBegun(es)[i], i, key)
  {
    AnthropicStreamEnd.LegalRuns(env, es);
    HappenedSo(es);
    forall i: nat, key | i < |Starts(es)|
      ensures Get(RebuiltBlocks(env, es)[i].wire, key) == MemberAfter(env, es, Starts(es)[i], i, key)
    {
      BlockMember(env, es, i, key);
    }
  }
}
