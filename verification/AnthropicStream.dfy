/**
 The Anthropic stream assembler: a state machine over JSON events that interleaves blocks,
 cut into deltas anywhere, under limits.
 */
module AnthropicStream {
  import opened Wrappers
  import opened Json
  import opened Model
  import opened AnthropicParse
  import opened StreamCommon
  import Sse

  datatype EventKind =
    | MessageStart | BlockStart | BlockDelta | BlockStop | MessageDelta | MessageStop
    | Ping | ErrorEvent | UnknownEvent

  function KindNamed(name: string): EventKind {
    if name == "message_start" then MessageStart
    else if name == "content_block_start" then BlockStart
    else if name == "content_block_delta" then BlockDelta
    else if name == "content_block_stop" then BlockStop
    else if name == "message_delta" then MessageDelta
    else if name == "message_stop" then MessageStop
    else if name == "ping" then Ping
    else if name == "error" then ErrorEvent
    else UnknownEvent
  }

  function KindOf(v: Json): Option<EventKind> {
    var name := StrOf(v, "type");
    if name.Some? then Some(KindNamed(name.value)) else None
  }

  datatype Piece = TextPiece | ThinkingPiece | SignaturePiece | InputPiece | CitationPiece | UnknownPiece

  function PieceNamed(name: string): Piece {
    if name == "text_delta" then TextPiece
    else if name == "thinking_delta" then ThinkingPiece
    else if name == "signature_delta" then SignaturePiece
    else if name == "input_json_delta" then InputPiece
    else if name == "citations_delta" then CitationPiece
    else UnknownPiece
  }

  function PieceOf(delta: Json): Piece {
    var name := StrOf(delta, "type");
    if name.Some? then PieceNamed(name.value) else UnknownPiece
  }

  datatype Block = Block(wire: Json, arguments: string, sawArguments: bool,
                         incomplete: bool, closed: bool, callIndex: Option<nat>)

  /** Block indexes are checked to follow declaration order, so the index map is a sequence. */
  datatype State = State(started: bool, stopped: bool, blocks: seq<Block>, tools: nat,
                         stopReason: Option<string>, usage: Fields, hasUsage: bool, bytes: nat)

  const Initial := State(false, false, [], 0, None, map[], false, 0)

  type Reaction = Result<(State, seq<StreamDelta>), ErrorKind>

  // -- block starts ------------------------------------------------------------------

  function WithField(v: Json, key: string, value: Json): Json {
    if v.Obj? then Obj(v.fields[key := value]) else v
  }

  predicate NonEmptyText(v: Json, key: string) {
    StrOf(v, key).Some? && StrOf(v, key) != Some("")
  }

  predicate TextOrAbsent(v: Json, key: string) {
    Get(v, key).Some? ==> StrOf(v, key).Some?
  }

  /** A content block a stream may start with. */
  predicate Openable(w: Json) {
    && StrOf(w, "type").Some?
    && match TypeOf(w)
       case TextBlock => StrOf(w, "text").Some?
       case ThinkingBlock => StrOf(w, "thinking").Some? && TextOrAbsent(w, "signature")
       case ToolUseBlock => NonEmptyText(w, "id") && NonEmptyText(w, "name") && IsObj(Get(w, "input"))
       case OtherBlock => true
  }

  function FieldCost(env: Env, fields: Fields, key: string): nat {
    if key in fields then |key| + Size(env.codec, fields[key]) else 0
  }

  function FieldsCost(env: Env, fields: Fields, keys: seq<string>, known: set<string>): nat {
    if keys == [] then 0
    else (if keys[0] in known then 0 else FieldCost(env, fields, keys[0])) + FieldsCost(env, fields, keys[1..], known)
  }

  function OtherFieldsCost(env: Env, w: Json, known: set<string>): nat {
    if w.Obj? then FieldsCost(env, w.fields, env.order(w.fields), known) else 0
  }

  /** Bytes charged for the fields a type gives meaning to. */
  function KnownCost(env: Env, w: Json): nat {
    |TextIn(w, "type")| +
    match TypeOf(w)
    case TextBlock => |TextIn(w, "text")|
    case ThinkingBlock => |TextIn(w, "thinking")| + |TextIn(w, "signature")|
    case ToolUseBlock => |TextIn(w, "id")| + |TextIn(w, "name")|
    case OtherBlock => 0
  }

  function KnownKeys(t: BlockType): set<string> {
    match t
    case TextBlock => {"type", "text"}
    case ToolUseBlock => {"type", "id", "name", "input"}
    case _ => {}
  }

  function InputCost(env: Env, w: Json): nat {
    if TypeOf(w).ToolUseBlock? && Get(w, "input").Some? then Size(env.codec, Get(w, "input").value) else 0
  }

  function OpenCost(env: Env, w: Json): nat {
    KnownCost(env, w) + OtherFieldsCost(env, w, KnownKeys(TypeOf(w))) + InputCost(env, w)
  }

  function OpenDeltas(w: Json, callIndex: Option<nat>): seq<StreamDelta> {
    match TypeOf(w)
    case TextBlock => if TextIn(w, "text") == "" then [] else [TextDelta(TextIn(w, "text"))]
    case ThinkingBlock => if TextIn(w, "thinking") == "" then [] else [ReasoningDelta(TextIn(w, "thinking"))]
    case ToolUseBlock =>
      if callIndex.Some? then [ToolCallDelta(callIndex.value, StrOf(w, "id"), StrOf(w, "name"), None)] else []
    case OtherBlock => []
  }

  predicate IdTaken(wires: seq<Json>, w: Json) {
    exists i :: 0 <= i < |wires| && StrOf(wires[i], "id").Some? && StrOf(wires[i], "id") == StrOf(w, "id")
  }

  // -- deltas ------------------------------------------------------------------------

  /** A delta the block can take. */
  predicate Fits(w: Json, delta: Json) {
    match PieceOf(delta)
    case TextPiece => TypeOf(w).TextBlock? && StrOf(delta, "text").Some? && TextOrAbsent(w, "text")
    case ThinkingPiece => TypeOf(w).ThinkingBlock? && StrOf(delta, "thinking").Some? && TextOrAbsent(w, "thinking")
    case SignaturePiece => TypeOf(w).ThinkingBlock? && StrOf(delta, "signature").Some? && TextOrAbsent(w, "signature")
    case InputPiece =>
      && (TypeOf(w).ToolUseBlock? || (TypeOf(w).OtherBlock? && IsObj(Get(w, "input"))))
      && StrOf(delta, "partial_json").Some?
    case CitationPiece => TypeOf(w).TextBlock? && Get(delta, "citation").Some?
    case UnknownPiece => false
  }

  /** The field of a delta that carries its text. */
  function PieceField(p: Piece): string {
    match p
    case TextPiece => "text"
    case ThinkingPiece => "thinking"
    case SignaturePiece => "signature"
    case InputPiece => "partial_json"
    case _ => ""
  }

  function PieceText(delta: Json): string {
    TextIn(delta, PieceField(PieceOf(delta)))
  }

  function CitationOf(delta: Json): Json {
    var c := Get(delta, "citation");
    if c.Some? then c.value else Null
  }

  function DeltaCost(env: Env, delta: Json): nat {
    match PieceOf(delta)
    case CitationPiece => Size(env.codec, CitationOf(delta))
    case UnknownPiece => 0
    case _ => |PieceText(delta)|
  }

  function ItemsIn(v: Json, key: string): seq<Json> {
    var m := Get(v, key);
    if m.Some? && m.value.Arr? then m.value.items else []
  }

  function Appended(w: Json, key: string, piece: string): Json {
    WithField(w, key, Str(TextIn(w, key) + piece))
  }

  function Apply(b: Block, delta: Json): Block {
    match PieceOf(delta)
    case InputPiece => b.(arguments := b.arguments + PieceText(delta), sawArguments := true)
    case CitationPiece =>
      b.(wire := WithField(b.wire, "citations", Arr(ItemsIn(b.wire, "citations") + [CitationOf(delta)])))
    case UnknownPiece => b
    case piece => b.(wire := Appended(b.wire, PieceField(piece), PieceText(delta)))
  }

  function ApplyDeltas(b: Block, delta: Json): seq<StreamDelta> {
    match PieceOf(delta)
    case TextPiece => [TextDelta(PieceText(delta))]
    case ThinkingPiece => [ReasoningDelta(PieceText(delta))]
    case InputPiece =>
      if TypeOf(b.wire).ToolUseBlock? && b.callIndex.Some? then
        [ToolCallDelta(b.callIndex.value, None, None, Some(PieceText(delta)))]
      else []
    case _ => []
  }

  // -- block stops -------------------------------------------------------------------

  /** Arguments either are an object or do not parse; a complete non-object is an error. */
  predicate Closable(env: Env, saw: bool, arguments: string) {
    saw ==> env.codec.parse(arguments).None? || env.codec.parse(arguments).value.Obj?
  }

  function Close(env: Env, b: Block): Block {
    if !b.sawArguments then b.(closed := true)
    else
      var input := env.codec.parse(b.arguments);
      if input.Some? then b.(wire := WithField(b.wire, "input", input.value), arguments := "", closed := true)
      else b.(incomplete := true, arguments := "", closed := true)
  }

  // -- the machine -------------------------------------------------------------------

  function Charge(env: Env, st: State, cost: nat, deltas: seq<StreamDelta>): Reaction {
    if st.bytes + cost > env.maxOutput then Err(Undecodable) else Ok((st.(bytes := st.bytes + cost), deltas))
  }

  /** A usage update, when there is one. */
  function TakeUsage(env: Env, st: State, update: Option<Json>): Reaction {
    if update.None? then Ok((st, []))
    else
      match MergeUsage(st.usage, update.value)
      case Err(kind) => Err(kind)
      case Ok(usage) =>
        Charge(env, st.(usage := usage, hasUsage := true), Growth(env.codec, st.usage, usage), [Usage(Obj(usage))])
  }

  function Message(v: Json): Json {
    var m := Get(v, "message");
    if m.Some? then m.value else Null
  }

  predicate GoodMessage(m: Json) {
    m.Obj? && Get(m, "content") == Some(Arr([])) && GetSome(m, "stop_reason").None?
  }

  function OnMessageStart(env: Env, st: State, v: Json): Reaction {
    if st.started || !GoodMessage(Message(v)) then Err(Undecodable)
    else TakeUsage(env, st.(started := true), GetSome(Message(v), "usage"))
  }

  function Wires(blocks: seq<Block>): (r: seq<Json>)
    ensures |r| == |blocks| && forall i :: 0 <= i < |r| ==> r[i] == blocks[i].wire
  {
    if blocks == [] then [] else [blocks[0].wire] + Wires(blocks[1..])
  }

  function StartWire(v: Json): Json {
    var w := Get(v, "content_block");
    if w.Some? then w.value else Null
  }

  function OnBlockStart(env: Env, st: State, v: Json): Reaction {
    var w := StartWire(v);
    var tool := TypeOf(w).ToolUseBlock?;
    if !st.started || st.stopped || |st.blocks| >= env.maxItems then Err(Undecodable)
    else if AsU64(Get(v, "index")) != Some(|st.blocks|) || !Openable(w) then Err(Undecodable)
    else if tool && IdTaken(Wires(st.blocks), w) then Err(Undecodable)
    else
      var callIndex := if tool then Some(st.tools) else None;
      var block := Block(w, "", false, false, false, callIndex);
      Charge(env, st.(blocks := st.blocks + [block], tools := st.tools + if tool then 1 else 0),
             OpenCost(env, w), OpenDeltas(w, callIndex))
  }

  /** The open block an event names. */
  function Target(st: State, v: Json): Option<nat> {
    var i := AsU64(Get(v, "index"));
    if st.started && !st.stopped && i.Some? && i.value < |st.blocks| && !st.blocks[i.value].closed then i else None
  }

  function DeltaIn(v: Json): Json {
    var d := Get(v, "delta");
    if d.Some? then d.value else Null
  }

  function OnBlockDelta(env: Env, st: State, v: Json): Reaction {
    var i, delta := Target(st, v), DeltaIn(v);
    if i.None? || !Fits(st.blocks[i.value].wire, delta) then Err(Undecodable)
    else
      var b := st.blocks[i.value];
      Charge(env, st.(blocks := st.blocks[i.value := Apply(b, delta)]), DeltaCost(env, delta), ApplyDeltas(b, delta))
  }

  function OnBlockStop(env: Env, st: State, v: Json): Reaction {
    var i := Target(st, v);
    if i.None? || !Closable(env, st.blocks[i.value].sawArguments, st.blocks[i.value].arguments) then Err(Undecodable)
    else Ok((st.(blocks := st.blocks[i.value := Close(env, st.blocks[i.value])]), []))
  }

  predicate AllClosed(blocks: seq<Block>) {
    forall i :: 0 <= i < |blocks| ==> blocks[i].closed
  }

  function OnMessageDelta(env: Env, st: State, v: Json): Reaction {
    if !st.started || !AllClosed(st.blocks) || Get(v, "delta").None? then Err(Undecodable)
    else
      var reason := GetSome(DeltaIn(v), "stop_reason");
      if reason.None? then TakeUsage(env, st, GetSome(v, "usage"))
      else if !reason.value.Str? || (st.stopReason.Some? && st.stopReason.value != reason.value.s) then Err(Undecodable)
      else TakeUsage(env, st.(stopReason := Some(reason.value.s), stopped := true), GetSome(v, "usage"))
  }

  predicate AnyIncomplete(blocks: seq<Block>) {
    exists i :: 0 <= i < |blocks| && blocks[i].incomplete
  }

  /** A token limit can cut the last block off; that block is left out. */
  function Kept(env: Env, blocks: seq<Block>, reason: string): seq<Block> {
    if env.classify(reason).MaxTokens? && blocks != [] && blocks[|blocks| - 1].incomplete
    then blocks[..|blocks| - 1] else blocks
  }

  /** The response a batch call would have carried. */
  function BatchResponse(content: seq<Json>, reason: string, usage: Option<Fields>): Json {
    var base: Fields := map["content" := Arr(content), "stop_reason" := Str(reason)];
    Obj(if usage.Some? then base["usage" := Obj(usage.value)] else base)
  }

  function OnMessageStop(env: Env, st: State): Reaction {
    if !st.started || !AllClosed(st.blocks) || st.stopReason.None? then Err(Undecodable)
    else
      var reason := st.stopReason.value;
      var kept := Kept(env, st.blocks, reason);
      if AnyIncomplete(kept) then Err(Undecodable)
      else
        var output :- ParseResponse(env.classify,
                                    BatchResponse(Wires(kept), reason, if st.hasUsage then Some(st.usage) else None));
        Ok((st.(blocks := [], usage := map[]), [Done(output)]))
  }

  function Step(env: Env, st: State, v: Json): Reaction {
    match KindOf(v)
    case None => Err(Undecodable)
    case Some(ErrorEvent) => Err(if Get(v, "error").Some? then ProviderReported else Undecodable)
    case Some(MessageStart) => OnMessageStart(env, st, v)
    case Some(BlockStart) => OnBlockStart(env, st, v)
    case Some(BlockDelta) => OnBlockDelta(env, st, v)
    case Some(BlockStop) => OnBlockStop(env, st, v)
    case Some(MessageDelta) => OnMessageDelta(env, st, v)
    case Some(MessageStop) => OnMessageStop(env, st)
    case Some(Ping) => Ok((st, []))
    case Some(UnknownEvent) => Ok((st, []))
  }

  /** A framed event: its data parsed, its name checked against its type. */
  function OnEvent(env: Env, st: State, e: Sse.SseEvent): Reaction {
    var value := env.codec.parse(AsText(e.data));
    if value.None? then Err(Undecodable)
    else
      var kind := StrOf(value.value, "type");
      if kind.None? then Err(Undecodable)
      else if e.name.Some? && AsText(e.name.value) != kind.value && AsText(e.name.value) != "message" then Err(Undecodable)
      else Step(env, st, value.value)
  }

  // -- the reference: a trace read block by block --------------------------------------

  /** The content blocks the trace starts, in order. */
  function Starts(es: seq<Json>): seq<Json>
    decreases |es|
  {
    if es == [] then []
    else
      var past, v := Starts(es[..|es| - 1]), es[|es| - 1];
      if KindOf(v) == Some(BlockStart) then past + [StartWire(v)] else past
  }

  predicate Names(v: Json, kind: EventKind, i: nat) {
    KindOf(v) == Some(kind) && AsU64(Get(v, "index")) == Some(i)
  }

  /** The deltas the trace gives block `i`, in order. */
  function DeltasFor(es: seq<Json>, i: nat): seq<Json>
    decreases |es|
  {
    if es == [] then []
    else
      var past, v := DeltasFor(es[..|es| - 1], i), es[|es| - 1];
      if Names(v, BlockDelta, i) then past + [DeltaIn(v)] else past
  }

  predicate StopFor(es: seq<Json>, i: nat)
    decreases |es|
  {
    es != [] && (StopFor(es[..|es| - 1], i) || Names(es[|es| - 1], BlockStop, i))
  }

  predicate HasStarted(es: seq<Json>)
    decreases |es|
  {
    es != [] && (HasStarted(es[..|es| - 1]) || KindOf(es[|es| - 1]) == Some(MessageStart))
  }

  function ReasonIn(v: Json): Option<Json> {
    if KindOf(v) == Some(MessageDelta) then GetSome(DeltaIn(v), "stop_reason") else None
  }

  /** The stop reason the trace reports. */
  function Reason(es: seq<Json>): Option<string>
    decreases |es|
  {
    if es == [] then None
    else
      var past := Reason(es[..|es| - 1]);
      var reason := ReasonIn(es[|es| - 1]);
      if past.None? && reason.Some? then AsStr(reason) else past
  }

  function UsageIn(v: Json): Option<Json> {
    match KindOf(v)
    case Some(MessageStart) => GetSome(Message(v), "usage")
    case Some(MessageDelta) => GetSome(v, "usage")
    case _ => None
  }

  datatype Ledger = Ledger(usage: Fields, hasUsage: bool, bytes: nat)

  function EventCost(env: Env, v: Json): nat {
    match KindOf(v)
    case Some(BlockStart) => OpenCost(env, StartWire(v))
    case Some(BlockDelta) => DeltaCost(env, DeltaIn(v))
    case _ => 0
  }

  function AccountsNext(env: Env, l: Ledger, v: Json): Option<Ledger> {
    var charged := l.(bytes := l.bytes + EventCost(env, v));
    if UsageIn(v).None? then Some(charged)
    else
      var merged := MergeUsage(charged.usage, UsageIn(v).value);
      if merged.Err? then None
      else Some(Ledger(merged.value, true, charged.bytes + Growth(env.codec, charged.usage, merged.value)))
  }

  /** Usage and retained bytes; nothing once a usage update does not merge. */
  function Accounts(env: Env, es: seq<Json>): Option<Ledger>
    decreases |es|
  {
    if es == [] then Some(Ledger(map[], false, 0))
    else
      var past := Accounts(env, es[..|es| - 1]);
      if past.None? then None else AccountsNext(env, past.value, es[|es| - 1])
  }

  /** The text pieces of one kind, joined. */
  function Pieces(ds: seq<Json>, p: Piece): string
    decreases |ds|
  {
    if ds == [] then ""
    else Pieces(ds[..|ds| - 1], p) + if PieceOf(ds[|ds| - 1]) == p then PieceText(ds[|ds| - 1]) else ""
  }

  predicate HasPiece(ds: seq<Json>, p: Piece) {
    exists i :: 0 <= i < |ds| && PieceOf(ds[i]) == p
  }

  function Citations(ds: seq<Json>): seq<Json>
    decreases |ds|
  {
    if ds == [] then []
    else Citations(ds[..|ds| - 1]) + if PieceOf(ds[|ds| - 1]).CitationPiece? then [CitationOf(ds[|ds| - 1])] else []
  }

  function WriteIf(w: Json, key: string, value: Option<Json>): Json {
    if value.Some? then WithField(w, key, value.value) else w
  }

  /** The field `key` with all its pieces behind what the start carried. */
  function Joined(w: Json, ds: seq<Json>, p: Piece): Option<Json> {
    if HasPiece(ds, p) then Some(Str(TextIn(w, PieceField(p)) + Pieces(ds, p))) else None
  }

  function Cited(w: Json, ds: seq<Json>): Option<Json> {
    if HasPiece(ds, CitationPiece) then Some(Arr(ItemsIn(w, "citations") + Citations(ds))) else None
  }

  /** The start of a block with its pieces put back, wherever they were cut. */
  function RebuiltWire(w: Json, ds: seq<Json>): Json {
    match TypeOf(w)
    case TextBlock => WriteIf(WriteIf(w, "text", Joined(w, ds, TextPiece)), "citations", Cited(w, ds))
    case ThinkingBlock =>
      WriteIf(WriteIf(w, "thinking", Joined(w, ds, ThinkingPiece)), "signature", Joined(w, ds, SignaturePiece))
    case _ => w
  }

  function Rebuilt(env: Env, w: Json, callIndex: Option<nat>, ds: seq<Json>, stopped: bool): Block {
    var open := Block(RebuiltWire(w, ds), Pieces(ds, InputPiece), HasPiece(ds, InputPiece), false, false, callIndex);
    if stopped then Close(env, open) else open
  }

  function ToolCount(ws: seq<Json>): nat {
    if ws == [] then 0
    else ToolCount(ws[..|ws| - 1]) + if TypeOf(ws[|ws| - 1]).ToolUseBlock? then 1 else 0
  }

  function CallIndex(ws: seq<Json>, i: nat): Option<nat>
    requires i < |ws|
  {
    if TypeOf(ws[i]).ToolUseBlock? then Some(ToolCount(ws[..i])) else None
  }

  /** Block `i` of the trace, read off its own start, deltas and stop. */
  function RebuiltAt(env: Env, es: seq<Json>, i: nat): Block
    requires i < |Starts(es)|
  {
    Rebuilt(env, Starts(es)[i], CallIndex(Starts(es), i), DeltasFor(es, i), StopFor(es, i))
  }

  function RebuiltBlocks(env: Env, es: seq<Json>): seq<Block> {
    seq(|Starts(es)|, i requires 0 <= i < |Starts(es)| => RebuiltAt(env, es, i))
  }

  function Expected(env: Env, es: seq<Json>): State {
    var l := Accounts(env, es);
    var ledger := if l.Some? then l.value else Ledger(map[], false, 0);
    State(HasStarted(es), Reason(es).Some?, RebuiltBlocks(env, es), ToolCount(Starts(es)), Reason(es),
          ledger.usage, ledger.hasUsage, ledger.bytes)
  }

  /** The block index of a delta or stop that the trace so far leaves open. */
  predicate OpenIndex(past: seq<Json>, v: Json) {
    && HasStarted(past) && Reason(past).None?
    && AsU64(Get(v, "index")).Some?
    && AsU64(Get(v, "index")).value < |Starts(past)|
    && !StopFor(past, AsU64(Get(v, "index")).value)
  }

  predicate AllStopped(es: seq<Json>) {
    forall i :: 0 <= i < |Starts(es)| ==> StopFor(es, i)
  }

  predicate StartAllowed(env: Env, past: seq<Json>, v: Json) {
    && HasStarted(past) && Reason(past).None? && |Starts(past)| < env.maxItems
    && AsU64(Get(v, "index")) == Some(|Starts(past)|) && Openable(StartWire(v))
    && (TypeOf(StartWire(v)).ToolUseBlock? ==> !IdTaken(Starts(past), StartWire(v)))
  }

  predicate DeltaAllowed(past: seq<Json>, v: Json) {
    OpenIndex(past, v) && Fits(Starts(past)[AsU64(Get(v, "index")).value], DeltaIn(v))
  }

  predicate StopAllowed(env: Env, past: seq<Json>, v: Json) {
    OpenIndex(past, v) &&
    var ds := DeltasFor(past, AsU64(Get(v, "index")).value);
    Closable(env, HasPiece(ds, InputPiece), Pieces(ds, InputPiece))
  }

  predicate ReportAllowed(past: seq<Json>, v: Json) {
    && HasStarted(past) && AllStopped(past) && Get(v, "delta").Some?
    && (ReasonIn(v).Some? ==> ReasonIn(v).value.Str? && (Reason(past).Some? ==> Reason(past) == AsStr(ReasonIn(v))))
  }

  /** What the protocol allows next, read off the trace alone. */
  predicate Allowed(env: Env, past: seq<Json>, v: Json) {
    match KindOf(v)
    case None => false
    case Some(ErrorEvent) => false
    case Some(MessageStop) => false
    case Some(Ping) => true
    case Some(UnknownEvent) => true
    case Some(MessageStart) => !HasStarted(past) && GoodMessage(Message(v))
    case Some(BlockStart) => StartAllowed(env, past, v)
    case Some(BlockDelta) => DeltaAllowed(past, v)
    case Some(BlockStop) => StopAllowed(env, past, v)
    case Some(MessageDelta) => ReportAllowed(past, v)
  }

  predicate Affordable(env: Env, es: seq<Json>) {
    Accounts(env, es).Some? && Accounts(env, es).value.bytes <= env.maxOutput
  }

  /** A trace, before its message_stop, that follows the protocol within the limits. */
  predicate Legal(env: Env, es: seq<Json>)
    decreases |es|
  {
    es == [] ||
    (var past := es[..|es| - 1];
     Legal(env, past) && Allowed(env, past, es[|es| - 1]) && Affordable(env, es))
  }

  /** The machine over a trace. */
  function RunTrace(env: Env, es: seq<Json>): Result<State, ErrorKind>
    decreases |es|
  {
    if es == [] then Ok(Initial)
    else
      var past :- RunTrace(env, es[..|es| - 1]);
      var next :- Step(env, past, es[|es| - 1]);
      Ok(next.0)
  }
}
