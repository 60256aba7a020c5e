/**
 What the consumer of an Anthropic stream is told, read off the events as they stand in the JSON:
 the names of events, blocks and fields are the protocol's, written out.
 */
module AnthropicDeltas {
  import opened Wrappers
  import opened Sequences
  import opened Json
  import opened Model
  import opened AnthropicParse
  import opened StreamCommon
  import opened AnthropicStream
  import opened AnthropicStreamProof
  import AnthropicStreamEnd

  // -- the events ---------------------------------------------------------------------------

  predicate Typed(v: Json, name: string) {
    Get(v, "type") == Some(Str(name))
  }

  function Member(v: Json, key: string): Json {
    var m := Get(v, key);
    if m.Some? then m.value else Null
  }

  /** The event starts a content block of this type. */
  predicate Begins(v: Json, name: string) {
    Typed(v, "content_block_start") && Typed(Member(v, "content_block"), name)
  }

  /** The event carries a piece of this type. */
  predicate Continues(v: Json, name: string) {
    Typed(v, "content_block_delta") && Typed(Member(v, "delta"), name)
  }

  /** The text an event adds to the answer. */
  function TextSaid(v: Json): string {
    if Begins(v, "text") then TextIn(Member(v, "content_block"), "text")
    else if Continues(v, "text_delta") then TextIn(Member(v, "delta"), "text")
    else ""
  }

  /** The text an event adds to the thoughts. */
  function ThoughtSaid(v: Json): string {
    if Begins(v, "thinking") then TextIn(Member(v, "content_block"), "thinking")
    else if Continues(v, "thinking_delta") then TextIn(Member(v, "delta"), "thinking")
    else ""
  }

  function AllTexts(es: seq<Json>): string
    decreases |es|
  {
    if es == [] then "" else AllTexts(es[..|es| - 1]) + TextSaid(es[|es| - 1])
  }

  function AllThoughts(es: seq<Json>): string
    decreases |es|
  {
    if es == [] then "" else AllThoughts(es[..|es| - 1]) + ThoughtSaid(es[|es| - 1])
  }

  /** A tool use, and the index its block goes by. */
  datatype Use = Use(index: Option<Json>, block: Json)

  /** The tool uses the trace starts, in order. */
  function Uses(es: seq<Json>): seq<Use>
    decreases |es|
  {
    if es == [] then []
    else
      var past, v := Uses(es[..|es| - 1]), es[|es| - 1];
      if Begins(v, "tool_use") then past + [Use(Get(v, "index"), Member(v, "content_block"))] else past
  }

  /** The call whose block goes by an index. */
  function CallAt(uses: seq<Use>, index: Option<Json>): Option<nat> {
    if uses == [] then None
    else if uses[|uses| - 1].index == index then Some(|uses| - 1)
    else CallAt(uses[..|uses| - 1], index)
  }

  /** The pieces of arguments the trace gives the block of an index, in order. */
  function ArgumentsAt(es: seq<Json>, index: Option<Json>): seq<string>
    decreases |es|
  {
    if es == [] then []
    else
      var past, v := ArgumentsAt(es[..|es| - 1], index), es[|es| - 1];
      if Continues(v, "input_json_delta") && Get(v, "index") == index
      then past + [TextIn(Member(v, "delta"), "partial_json")] else past
  }

  // -- what an event tells --------------------------------------------------------------------

  function StartTells(k: nat, w: Json): seq<StreamDelta> {
    if Typed(w, "text") && TextIn(w, "text") != "" then [TextDelta(TextIn(w, "text"))]
    else if Typed(w, "thinking") && TextIn(w, "thinking") != "" then [ReasoningDelta(TextIn(w, "thinking"))]
    else if Typed(w, "tool_use") then [ToolCallDelta(k, StrOf(w, "id"), StrOf(w, "name"), None)]
    else []
  }

  function PieceTells(call: Option<nat>, d: Json): seq<StreamDelta> {
    if Typed(d, "text_delta") then [TextDelta(TextIn(d, "text"))]
    else if Typed(d, "thinking_delta") then [ReasoningDelta(TextIn(d, "thinking"))]
    else if Typed(d, "input_json_delta") && call.Some?
    then [ToolCallDelta(call.value, None, None, Some(TextIn(d, "partial_json")))]
    else []
  }

  /** The usage an event reports. */
  function UsageReported(v: Json): Option<Json> {
    if Typed(v, "message_start") then GetSome(Member(v, "message"), "usage")
    else if Typed(v, "message_delta") then GetSome(v, "usage")
    else None
  }

  /** The usage known once a trace is in. */
  function UsageAfter(env: Env, es: seq<Json>): Fields {
    var l := Accounts(env, es);
    if l.Some? then l.value.usage else map[]
  }

  function EventTells(env: Env, past: seq<Json>, v: Json): seq<StreamDelta> {
    if Typed(v, "content_block_start") then StartTells(|Uses(past)|, Member(v, "content_block"))
    else if Typed(v, "content_block_delta") then PieceTells(CallAt(Uses(past), Get(v, "index")), Member(v, "delta"))
    else if UsageReported(v).Some? then [Usage(Obj(UsageAfter(env, past + [v])))]
    else []
  }

  /** All a trace tells, event by event. */
  function Told(env: Env, es: seq<Json>): seq<StreamDelta>
    decreases |es|
  {
    if es == [] then []
    else Told(env, es[..|es| - 1]) + EventTells(env, es[..|es| - 1], es[|es| - 1])
  }

  /** What the machine delivers for an event, after the events before it. */
  function Answer(env: Env, past: seq<Json>, v: Json): seq<StreamDelta> {
    var st := RunTrace(env, past);
    if st.Err? then []
    else
      var r := Step(env, st.value, v);
      if r.Ok? then r.value.1 else []
  }

  /** All the machine delivers over a trace. */
  function Delivered(env: Env, es: seq<Json>): seq<StreamDelta>
    decreases |es|
  {
    if es == [] then []
    else Delivered(env, es[..|es| - 1]) + Answer(env, es[..|es| - 1], es[|es| - 1])
  }

  // -- names ------------------------------------------------------------------------------------

  lemma EventNames(name: string)
    ensures KindNamed(name).MessageStart? <==> name == "message_start"
    ensures KindNamed(name).BlockStart? <==> name == "content_block_start"
    ensures KindNamed(name).BlockDelta? <==> name == "content_block_delta"
    ensures KindNamed(name).BlockStop? <==> name == "content_block_stop"
    ensures KindNamed(name).MessageDelta? <==> name == "message_delta"
    ensures KindNamed(name).MessageStop? <==> name == "message_stop"
    ensures KindNamed(name).ErrorEvent? <==> name == "error"
  {
    assert "content_block_start"[14] != "content_block_delta"[14];
    assert "message_start"[8] != "message_delta"[8];
  }

  lemma EventKinds(v: Json)
    ensures KindOf(v) == Some(MessageStart) <==> Typed(v, "message_start")
    ensures KindOf(v) == Some(BlockStart) <==> Typed(v, "content_block_start")
    ensures KindOf(v) == Some(BlockDelta) <==> Typed(v, "content_block_delta")
    ensures KindOf(v) == Some(BlockStop) <==> Typed(v, "content_block_stop")
    ensures KindOf(v) == Some(MessageDelta) <==> Typed(v, "message_delta")
    ensures KindOf(v) == Some(MessageStop) <==> Typed(v, "message_stop")
    ensures KindOf(v) == Some(ErrorEvent) <==> Typed(v, "error")
    ensures KindOf(v) == None <==> StrOf(v, "type").None?
  {
    var name := StrOf(v, "type");
    if name.Some? {
      EventNames(name.value);
    }
  }

  lemma PieceNames(name: string)
    ensures PieceNamed(name).TextPiece? <==> name == "text_delta"
    ensures PieceNamed(name).ThinkingPiece? <==> name == "thinking_delta"
    ensures PieceNamed(name).SignaturePiece? <==> name == "signature_delta"
    ensures PieceNamed(name).InputPiece? <==> name == "input_json_delta"
    ensures PieceNamed(name).CitationPiece? <==> name == "citations_delta"
  {
    assert "signature_delta"[0] != "citations_delta"[0];
  }

  lemma PieceKinds(d: Json)
    ensures PieceOf(d).TextPiece? <==> Typed(d, "text_delta")
    ensures PieceOf(d).ThinkingPiece? <==> Typed(d, "thinking_delta")
    ensures PieceOf(d).SignaturePiece? <==> Typed(d, "signature_delta")
    ensures PieceOf(d).InputPiece? <==> Typed(d, "input_json_delta")
    ensures PieceOf(d).CitationPiece? <==> Typed(d, "citations_delta")
  {
    var name := StrOf(d, "type");
    if name.Some? {
      PieceNames(name.value);
    }
  }

  lemma BlockNames(name: string)
    ensures TypeNamed(name).TextBlock? <==> name == "text"
    ensures TypeNamed(name).ThinkingBlock? <==> name == "thinking"
    ensures TypeNamed(name).ToolUseBlock? <==> name == "tool_use"
  {
    assert "thinking"[1] != "tool_use"[1];
  }

  lemma BlockKinds(w: Json)
    ensures TypeOf(w).TextBlock? <==> Typed(w, "text")
    ensures TypeOf(w).ThinkingBlock? <==> Typed(w, "thinking")
    ensures TypeOf(w).ToolUseBlock? <==> Typed(w, "tool_use")
  {
    var name := StrOf(w, "type");
    if name.Some? {
      BlockNames(name.value);
    }
  }

  // -- the uses are the calls the machine counts --------------------------------------------------

  lemma Longer(env: Env, past: seq<Json>, v: Json, index: Option<Json>)
    ensures var es := past + [v];
            && Uses(es) == (if Begins(v, "tool_use") then Uses(past) + [Use(Get(v, "index"), Member(v, "content_block"))]
                            else Uses(past))
            && ArgumentsAt(es, index) ==
               (if Continues(v, "input_json_delta") && Get(v, "index") == index
                then ArgumentsAt(past, index) + [TextIn(Member(v, "delta"), "partial_json")] else ArgumentsAt(past, index))
            && AllTexts(es) == AllTexts(past) + TextSaid(v)
            && AllThoughts(es) == AllThoughts(past) + ThoughtSaid(v)
            && Told(env, es) == Told(env, past) + EventTells(env, past, v)
            && Delivered(env, es) == Delivered(env, past) + Answer(env, past, v)
  {
    var es := past + [v];
    assert es[..|es| - 1] == past && es[|es| - 1] == v;
  }

  /** Each use goes by its own index. */
  ghost predicate Apart(uses: seq<Use>) {
    forall j, k :: 0 <= j < k < |uses| ==> uses[j].index != uses[k].index
  }

  lemma {:induction false} CallFound(uses: seq<Use>, index: Option<Json>, k: nat)
    requires Apart(uses)
    ensures CallAt(uses, index) == Some(k) <==> k < |uses| && uses[k].index == index
    decreases |uses|
  {
    if uses != [] && uses[|uses| - 1].index != index {
      CallFound(uses[..|uses| - 1], index, k);
    }
  }

  lemma CallAmong(uses: seq<Use>, last: Use, index: Option<Json>)
    ensures CallAt(uses + [last], index) == if last.index == index then Some(|uses|) else CallAt(uses, index)
  {
    assert (uses + [last])[..|uses|] == uses;
  }

  function IndexOfBlock(i: nat): Option<Json> {
    Some(Int(i))
  }

  /** The calls found by index are those the blocks of the trace have. */
  ghost predicate Counted(es: seq<Json>) {
    && |Uses(es)| == ToolCount(Starts(es))
    && (forall i: nat :: i < |Starts(es)| ==> CallAt(Uses(es), IndexOfBlock(i)) == CallIndex(Starts(es), i))
    && (forall i: nat :: i >= |Starts(es)| ==> CallAt(Uses(es), IndexOfBlock(i)) == None)
    && Apart(Uses(es))
  }

  /** Where a call is found once one more block is there. */
  lemma {:induction false} CallMoved(uses: seq<Use>, ws: seq<Json>, w: Json, i: nat)
    requires i < |ws| ==> CallAt(uses, IndexOfBlock(i)) == CallIndex(ws, i)
    requires i >= |ws| ==> CallAt(uses, IndexOfBlock(i)) == None
    requires |uses| == ToolCount(ws)
    ensures CallAt(if Typed(w, "tool_use") then uses + [Use(IndexOfBlock(|ws|), w)] else uses, IndexOfBlock(i)) ==
            if i <= |ws| then CallIndex(ws + [w], i) else None
  {
    BlockKinds(w);
    CallAmong(uses, Use(IndexOfBlock(|ws|), w), IndexOfBlock(i));
    if i < |ws| {
      CallIndexStable(ws, [w], i);
    }
    assert (ws + [w])[..|ws|] == ws;
  }

  lemma {:induction false} StartCounted(env: Env, past: seq<Json>, v: Json)
    requires Counted(past) && KindOf(v) == Some(BlockStart) && StartAllowed(env, past, v)
    ensures Counted(past + [v])
  {
    var ws, w, uses := Starts(past), StartWire(v), Uses(past);
    Unfold(past, v);
    Longer(env, past, v, None);
    EventKinds(v);
    BlockKinds(w);
    ToolCountSnoc(ws, w);
    assert Get(v, "index") == IndexOfBlock(|ws|);
    forall i: nat
      ensures CallAt(Uses(past + [v]), IndexOfBlock(i)) == if i <= |ws| then CallIndex(ws + [w], i) else None
    {
      CallMoved(uses, ws, w, i);
    }
    forall k | 0 <= k < |uses| ensures uses[k].index != IndexOfBlock(|ws|) {
      CallFound(uses, IndexOfBlock(|ws|), k);
    }
  }

  lemma {:induction false} LegalIsCounted(env: Env, es: seq<Json>)
    requires Legal(env, es)
    ensures Counted(es)
    decreases |es|
  {
    if es != [] {
      var past, v := es[..|es| - 1], es[|es| - 1];
      assert es == past + [v];
      LegalIsCounted(env, past);
      if KindOf(v) == Some(BlockStart) {
        StartCounted(env, past, v);
      } else {
        Unfold(past, v);
        Longer(env, past, v, None);
        EventKinds(v);
      }
    }
  }

  // -- the machine delivers what the trace tells -----------------------------------------------------

  lemma StartDelivers(env: Env, st: State, v: Json)
    requires OnBlockStart(env, st, v).Ok?
    ensures OnBlockStart(env, st, v).value.1 == StartTells(st.tools, Member(v, "content_block"))
  {
    BlockKinds(StartWire(v));
  }

  lemma PieceDelivers(env: Env, st: State, v: Json, call: Option<nat>)
    requires OnBlockDelta(env, st, v).Ok?
    requires var b := st.blocks[Target(st, v).value];
             b.callIndex == call && (TypeOf(b.wire).ToolUseBlock? <==> call.Some?)
    ensures OnBlockDelta(env, st, v).value.1 == PieceTells(call, Member(v, "delta"))
  {
    PieceKinds(DeltaIn(v));
  }

  lemma {:induction false} PieceTold(env: Env, past: seq<Json>, v: Json)
    requires KindOf(v) == Some(BlockDelta) && Counted(past) && DeltaAllowed(past, v)
    requires OnBlockDelta(env, Expected(env, past), v).Ok?
    ensures OnBlockDelta(env, Expected(env, past), v).value.1 ==
            PieceTells(CallAt(Uses(past), Get(v, "index")), Member(v, "delta"))
  {
    var i := AsU64(Get(v, "index")).value;
    assert Get(v, "index") == IndexOfBlock(i);
    TargetAgrees(env, past, v);
    assert RebuiltBlocks(env, past)[i] == RebuiltAt(env, past, i);
    RebuiltType(Starts(past)[i], DeltasFor(past, i));
    PieceDelivers(env, Expected(env, past), v, CallIndex(Starts(past), i));
  }

  lemma {:induction false} UsageDelivered(env: Env, st: State, update: Option<Json>)
    requires TakeUsage(env, st, update).Ok?
    ensures TakeUsage(env, st, update).value.1 ==
            if update.None? then [] else [Usage(Obj(TakeUsage(env, st, update).value.0.usage))]
  {
  }

  lemma {:induction false} OtherDelivers(env: Env, st: State, v: Json)
    requires Step(env, st, v).Ok? && KindOf(v) != Some(MessageStop)
    requires !Typed(v, "content_block_start") && !Typed(v, "content_block_delta")
    ensures Step(env, st, v).value.1 ==
            if UsageReported(v).None? then [] else [Usage(Obj(Step(env, st, v).value.0.usage))]
  {
    EventKinds(v);
    if KindOf(v) == Some(MessageStart) {
      UsageDelivered(env, st.(started := true), GetSome(Message(v), "usage"));
    }
  }

  /** One event on the state its past accounts for. */
  lemma {:induction false} EventTold(env: Env, past: seq<Json>, v: Json)
    requires Sound(env, past) && Counted(past) && KindOf(v) != Some(MessageStop)
    requires Allowed(env, past, v) && Affordable(env, past + [v])
    ensures Step(env, Expected(env, past), v).Ok?
    ensures Step(env, Expected(env, past), v).value.1 == EventTells(env, past, v)
  {
    EventAgrees(env, past, v);
    EventKinds(v);
    var st := Expected(env, past);
    if KindOf(v) == Some(BlockStart) {
      StartDelivers(env, st, v);
    } else if KindOf(v) == Some(BlockDelta) {
      PieceTold(env, past, v);
    } else {
      OtherDelivers(env, st, v);
    }
  }

  lemma {:induction false} DeliveredIsTold(env: Env, es: seq<Json>)
    requires Legal(env, es)
    ensures Delivered(env, es) == Told(env, es)
    decreases |es|
  {
    if es != [] {
      var past, v := es[..|es| - 1], es[|es| - 1];
      assert es == past + [v];
      DeliveredIsTold(env, past);
      AnthropicStreamEnd.LegalRuns(env, past);
      LegalIsSound(env, past);
      LegalIsCounted(env, past);
      EventTold(env, past, v);
    }
  }

  // -- what the consumer puts together -----------------------------------------------------------------

  /** The answer's text, as the deltas give it. */
  function TextOf(ds: seq<StreamDelta>): string {
    if ds == [] then "" else (if ds[0].TextDelta? then ds[0].text else "") + TextOf(ds[1..])
  }

  function ThoughtOf(ds: seq<StreamDelta>): string {
    if ds == [] then "" else (if ds[0].ReasoningDelta? then ds[0].reasoning else "") + ThoughtOf(ds[1..])
  }

  /** The deltas of one call. */
  function ForCall(ds: seq<StreamDelta>, k: nat): seq<StreamDelta> {
    if ds == [] then []
    else (if ds[0].ToolCallDelta? && ds[0].callIndex == k then [ds[0]] else []) + ForCall(ds[1..], k)
  }

  lemma {:induction false} TextConcat(a: seq<StreamDelta>, b: seq<StreamDelta>)
    ensures TextOf(a + b) == TextOf(a) + TextOf(b)
    decreases |a|
  {
    if a == [] {
      NoneFirst(b);
    } else {
      assert (a + b)[0] == a[0] && (a + b)[1..] == a[1..] + b;
      TextConcat(a[1..], b);
    }
  }

  lemma {:induction false} ThoughtConcat(a: seq<StreamDelta>, b: seq<StreamDelta>)
    ensures ThoughtOf(a + b) == ThoughtOf(a) + ThoughtOf(b)
    decreases |a|
  {
    if a == [] {
      NoneFirst(b);
    } else {
      assert (a + b)[0] == a[0] && (a + b)[1..] == a[1..] + b;
      ThoughtConcat(a[1..], b);
    }
  }

  lemma {:induction false} CallConcat(a: seq<StreamDelta>, b: seq<StreamDelta>, k: nat)
    ensures ForCall(a + b, k) == ForCall(a, k) + ForCall(b, k)
    decreases |a|
  {
    if a == [] {
      NoneFirst(b);
    } else {
      assert (a + b)[0] == a[0] && (a + b)[1..] == a[1..] + b;
      CallConcat(a[1..], b, k);
    }
  }

  lemma ReadOne(d: StreamDelta, k: nat)
    ensures TextOf([d]) == if d.TextDelta? then d.text else ""
    ensures ThoughtOf([d]) == if d.ReasoningDelta? then d.reasoning else ""
    ensures ForCall([d], k) == if d.ToolCallDelta? && d.callIndex == k then [d] else []
  {
    assert [d][1..] == [];
  }

  /** The deltas that carry a call's arguments. */
  function ArgumentDeltas(k: nat, pieces: seq<string>): (r: seq<StreamDelta>)
    ensures |r| == |pieces|
    ensures forall i :: 0 <= i < |r| ==> r[i] == ToolCallDelta(k, None, None, Some(pieces[i]))
  {
    seq(|pieces|, i requires 0 <= i < |pieces| => ToolCallDelta(k, None, None, Some(pieces[i])))
  }

  /** What call `k` must be told: its id and name when its block starts, then its arguments. */
  function CallTells(uses: seq<Use>, k: nat, pieces: seq<string>): seq<StreamDelta> {
    if k < |uses| then
      [ToolCallDelta(k, StrOf(uses[k].block, "id"), StrOf(uses[k].block, "name"), None)] + ArgumentDeltas(k, pieces)
    else []
  }

  function PiecesOf(es: seq<Json>, k: nat): seq<string> {
    if k < |Uses(es)| then ArgumentsAt(es, Uses(es)[k].index) else []
  }

  /** What one event adds. */
  lemma EventAdds(env: Env, past: seq<Json>, v: Json, k: nat)
    ensures var tells := EventTells(env, past, v);
            && TextOf(tells) == TextSaid(v) && ThoughtOf(tells) == ThoughtSaid(v)
            && ForCall(tells, k) ==
               if Begins(v, "tool_use") && k == |Uses(past)| then
                 [ToolCallDelta(k, StrOf(Member(v, "content_block"), "id"), StrOf(Member(v, "content_block"), "name"), None)]
               else if Continues(v, "input_json_delta") && CallAt(Uses(past), Get(v, "index")) == Some(k) then
                 [ToolCallDelta(k, None, None, Some(TextIn(Member(v, "delta"), "partial_json")))]
               else []
  {
    var tells := EventTells(env, past, v);
    if tells != [] {
      ReadOne(tells[0], k);
      assert tells == [tells[0]];
    }
    BlockKinds(Member(v, "content_block"));
    PieceKinds(Member(v, "delta"));
    EventKinds(v);
  }

  function Concat(parts: seq<string>): string {
    if parts == [] then "" else Concat(parts[..|parts| - 1]) + parts[|parts| - 1]
  }

  lemma ConcatSnoc(parts: seq<string>, last: string)
    ensures Concat(parts + [last]) == Concat(parts) + last
  {
    assert (parts + [last])[..|parts|] == parts;
  }

  lemma NamesRead(v: Json, i: nat)
    requires i <= MAX_U64
    ensures AsU64(Get(v, "index")) == Some(i) <==> Get(v, "index") == IndexOfBlock(i)
  {
  }

  lemma {:induction false} ArgumentsStep(env: Env, past: seq<Json>, v: Json, i: nat)
    requires i <= MAX_U64
    ensures ArgumentsAt(past + [v], IndexOfBlock(i)) ==
            ArgumentsAt(past, IndexOfBlock(i)) +
            if Names(v, BlockDelta, i) && PieceOf(DeltaIn(v)) == InputPiece then [PieceText(DeltaIn(v))] else []
  {
    Longer(env, past, v, IndexOfBlock(i));
    EventKinds(v);
    PieceKinds(DeltaIn(v));
    NamesRead(v, i);
    NoneLast(ArgumentsAt(past, IndexOfBlock(i)));
  }

  /** The pieces at an index are those of the block's deltas. */
  lemma {:induction false} ArgumentsRead(env: Env, es: seq<Json>, i: nat)
    requires i <= MAX_U64
    ensures Concat(ArgumentsAt(es, IndexOfBlock(i))) == Pieces(DeltasFor(es, i), InputPiece)
    ensures ArgumentsAt(es, IndexOfBlock(i)) != [] <==> HasPiece(DeltasFor(es, i), InputPiece)
    decreases |es|
  {
    if es != [] {
      var past, v := es[..|es| - 1], es[|es| - 1];
      assert es == past + [v];
      ArgumentsRead(env, past, i);
      ArgumentsStep(env, past, v, i);
      UnfoldBlock(past, v, i);
      PiecesSnoc(DeltasFor(past, i), DeltaIn(v), InputPiece);
      ConcatSnoc(ArgumentsAt(past, IndexOfBlock(i)), PieceText(DeltaIn(v)));
      NoneLast(ArgumentsAt(past, IndexOfBlock(i)));
      NoneLast(Pieces(DeltasFor(past, i), InputPiece));
    }
  }

  lemma ArgumentsSnoc(k: nat, pieces: seq<string>, last: string)
    ensures ArgumentDeltas(k, pieces + [last]) == ArgumentDeltas(k, pieces) + [ToolCallDelta(k, None, None, Some(last))]
  {
  }

  /** A use that starts has no pieces yet. */
  lemma {:induction false} UseTold(env: Env, past: seq<Json>, v: Json, k: nat)
    requires Sound(env, past) && Counted(past) && KindOf(v) == Some(BlockStart) && StartAllowed(env, past, v)
    requires Begins(v, "tool_use")
    ensures var es := past + [v];
            CallTells(Uses(es), k, PiecesOf(es, k)) ==
            CallTells(Uses(past), k, PiecesOf(past, k)) + ForCall(EventTells(env, past, v), k)
  {
    var uses, n := Uses(past), |Starts(past)|;
    EventAdds(env, past, v, k);
    EventKinds(v);
    Longer(env, past, v, if k < |uses| then uses[k].index else IndexOfBlock(n));
    if k < |uses| {
      NoneLast(CallTells(uses, k, PiecesOf(past, k)));
    } else if k == |uses| {
      ArgumentsRead(env, past, n);
      NamesRead(v, n);
      assert ArgumentDeltas(k, []) == [];
    }
  }

  /** A piece goes to the call whose block it names. */
  lemma {:induction false} PieceToldTo(env: Env, past: seq<Json>, v: Json, k: nat)
    requires Counted(past) && Continues(v, "input_json_delta") && !Begins(v, "tool_use")
    ensures var es := past + [v];
            CallTells(Uses(es), k, PiecesOf(es, k)) ==
            CallTells(Uses(past), k, PiecesOf(past, k)) + ForCall(EventTells(env, past, v), k)
  {
    var uses, piece := Uses(past), TextIn(Member(v, "delta"), "partial_json");
    EventAdds(env, past, v, k);
    CallFound(uses, Get(v, "index"), k);
    Longer(env, past, v, if k < |uses| then uses[k].index else None);
    var tells := CallTells(uses, k, PiecesOf(past, k));
    if k < |uses| && uses[k].index == Get(v, "index") {
      ArgumentsSnoc(k, PiecesOf(past, k), piece);
      Associate([tells[0]], ArgumentDeltas(k, PiecesOf(past, k)), [ToolCallDelta(k, None, None, Some(piece))]);
    } else {
      NoneLast(tells);
    }
  }

  lemma {:induction false} OtherToldTo(env: Env, past: seq<Json>, v: Json, k: nat)
    requires !Continues(v, "input_json_delta") && !Begins(v, "tool_use")
    ensures var es := past + [v];
            CallTells(Uses(es), k, PiecesOf(es, k)) ==
            CallTells(Uses(past), k, PiecesOf(past, k)) + ForCall(EventTells(env, past, v), k)
  {
    var uses := Uses(past);
    EventAdds(env, past, v, k);
    Longer(env, past, v, if k < |uses| then uses[k].index else None);
    NoneLast(CallTells(uses, k, PiecesOf(past, k)));
  }

  lemma {:induction false} CallTold(env: Env, es: seq<Json>, k: nat)
    requires Legal(env, es)
    ensures ForCall(Told(env, es), k) == CallTells(Uses(es), k, PiecesOf(es, k))
    decreases |es|
  {
    if es != [] {
      var past, v := es[..|es| - 1], es[|es| - 1];
      assert es == past + [v];
      CallTold(env, past, k);
      LegalIsSound(env, past);
      LegalIsCounted(env, past);
      Longer(env, past, v, None);
      CallConcat(Told(env, past), EventTells(env, past, v), k);
      EventKinds(v);
      if Begins(v, "tool_use") {
        UseTold(env, past, v, k);
      } else if Continues(v, "input_json_delta") {
        PieceToldTo(env, past, v, k);
      } else {
        OtherToldTo(env, past, v, k);
      }
    }
  }

  lemma {:induction false} TextsTold(env: Env, es: seq<Json>)
    ensures TextOf(Told(env, es)) == AllTexts(es) && ThoughtOf(Told(env, es)) == AllThoughts(es)
    decreases |es|
  {
    if es != [] {
      var past, v := es[..|es| - 1], es[|es| - 1];
      assert es == past + [v];
      TextsTold(env, past);
      Longer(env, past, v, None);
      TextConcat(Told(env, past), EventTells(env, past, v));
      ThoughtConcat(Told(env, past), EventTells(env, past, v));
      EventAdds(env, past, v, 0);
    }
  }

  /**
   A legal trace delivers, event by event, what its events say: the text deltas joined are the
   texts of the answer, the reasoning deltas joined its thoughts, and each call is told its own
   id and name and then the pieces of its own arguments, in the order of the trace.
   */
  lemma {:induction false} DeltasTell(env: Env, es: seq<Json>, k: nat)
    requires Legal(env, es)
    ensures Delivered(env, es) == Told(env, es)
    ensures TextOf(Delivered(env, es)) == AllTexts(es)
    ensures ThoughtOf(Delivered(env, es)) == AllThoughts(es)
    ensures ForCall(Delivered(env, es), k) == CallTells(Uses(es), k, PiecesOf(es, k))
  {
    DeliveredIsTold(env, es);
    TextsTold(env, es);
    CallTold(env, es, k);
  }

  /** An index that passed for a block's number fits the integers indexes are read as. */
  lemma {:induction false} StartsBounded(env: Env, es: seq<Json>)
    requires Legal(env, es)
    ensures |Starts(es)| <= MAX_U64 + 1
    decreases |es|
  {
    if es != [] {
      var past, v := es[..|es| - 1], es[|es| - 1];
      assert es == past + [v];
      StartsBounded(env, past);
      Unfold(past, v);
    }
  }

  /** The pieces a call is told are those its block's input is parsed from. */
  lemma {:induction false} CallsOwnPieces(env: Env, es: seq<Json>, i: nat)
    requires Legal(env, es) && i < |Starts(es)| && Typed(Starts(es)[i], "tool_use")
    ensures var k := ToolCount(Starts(es)[..i]);
            && k < |Uses(es)| && Uses(es)[k].index == Some(Int(i))
            && Concat(PiecesOf(es, k)) == Pieces(DeltasFor(es, i), InputPiece)
  {
    var k := ToolCount(Starts(es)[..i]);
    BlockKinds(Starts(es)[i]);
    StartsBounded(env, es);
    LegalIsCounted(env, es);
    CallFound(Uses(es), IndexOfBlock(i), k);
    ArgumentsRead(env, es, i);
  }
}
