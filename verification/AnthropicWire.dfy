/** The Anthropic Messages renderer: segments into alternating messages, and where the cache marker goes. */
module AnthropicWire {
  import opened Wrappers
  import opened Sequences
  import opened Json
  import opened Blocks
  import opened ToolSets
  import opened ToolPlan
  import opened ToolHistory
  import opened Segments

  /** Where a content block came from: sealed items and tool changes never carry the marker. */
  datatype Kind = Plain | Verbatim | Change

  datatype Cell = Cell(block: Json, kind: Kind)

  datatype Tagged = Tagged(role: string, cells: seq<Cell>)

  datatype Body = Body(messages: seq<Tagged>, offered: Tools)

  // -- content blocks ---------------------------------------------------------------------

  function TextJson(text: string): Json {
    Obj(map["type" := Str("text"), "text" := Str(text)])
  }

  function ShownJson(m: Resolved): Json {
    match m
    case Shown(item) => item
    case Placeholder(text) => TextJson(text)
  }

  function RoleName(role: Role): string {
    match role
    case System => "system"
    case User => "user"
    case Assistant => "assistant"
  }

  /** An assistant text with the provider's fields around it, if it is its block's only part. */
  function AssistantText(text: string, parts: nat, wire: Option<Json>): Json {
    var residue := if parts == 1 then ResidueObject(wire) else map[];
    Obj(OrInsert(residue, "type", Str("text"))["text" := Str(text)])
  }

  function ToolUseJson(wireId: string, name: string, arguments: Json, wire: Option<Json>): Json {
    Obj(OrInsert(ResidueObject(wire), "type", Str("tool_use"))["id" := Str(wireId)]["name" := Str(name)]["input" := arguments])
  }

  function NoteBlocks(notes: seq<string>): seq<Json> {
    if notes == [] then []
    else [TextJson("Notes:")] + seq(|notes|, i requires 0 <= i < |notes| => TextJson("- " + notes[i]))
  }

  function ShownAll(media: seq<Resolved>): seq<Json> {
    seq(|media|, i requires 0 <= i < |media| => ShownJson(media[i]))
  }

  function ResultContent(content: string, notes: seq<string>, media: seq<Resolved>): Json {
    if notes == [] && media == [] then Str(content)
    else Arr([TextJson(content)] + NoteBlocks(notes) + ShownAll(media))
  }

  function ToolResultJson(wireId: string, status: Status, content: Json): Json {
    var base: Fields := map["type" := Str("tool_result"), "tool_use_id" := Str(wireId), "content" := content];
    Obj(if status.Succeeded? then base else base["is_error" := Bool(true)])
  }

  function DefinitionJson(d: ToolDefinition): Json {
    Obj(map["name" := Str(d.name), "description" := Str(d.description), "input_schema" := d.parameters])
  }

  function ChangeJson(c: ChangeBlock): Json {
    match c
    case Removal(name) =>
      Obj(map["type" := Str("tool_removal"), "tool" := Obj(map["type" := Str("tool_reference"), "name" := Str(name)])])
    case Addition(d) =>
      Obj(map["type" := Str("tool_addition"),
              "tool" := Obj(map["type" := Str("tool_definition"), "definition" := DefinitionJson(d)])])
  }

  // -- one segment ------------------------------------------------------------------------------

  /** The role and the content blocks a segment renders to. */
  function CellsOf(env: RenderEnv, offered: Tools, s: Segment): (string, seq<Cell>) {
    match s
    case TextSegment(role, text, _, parts, wire) =>
      if role.Assistant? then
        ("assistant", if env.names.blank(text) then [] else [Cell(AssistantText(text, parts, wire), Plain)])
      else (RoleName(role), [Cell(TextJson(text), Plain)])
    case SealedSegment(item) => ("assistant", [Cell(item, Verbatim)])
    case MediaSegment(role, media, _) => (RoleName(role), [Cell(ShownJson(media), Plain)])
    case CallSegment(wireId, name, arguments, wire) => ("assistant", [Cell(ToolUseJson(wireId, name, arguments, wire), Plain)])
    case ResultSegment(wireId, status, content, notes, media) =>
      ("user", [Cell(ToolResultJson(wireId, status, ResultContent(content, notes, media)), Plain)])
    case ChangeSegment(change) =>
      var blocks := ChangeBlocks(change, offered);
      ("system", ChangeCells(blocks))
  }

  function ChangeCells(blocks: seq<ChangeBlock>): (cells: seq<Cell>)
    ensures |cells| == |blocks| && forall i :: 0 <= i < |cells| ==> cells[i] == Cell(ChangeJson(blocks[i]), Change)
  {
    seq(|blocks|, i requires 0 <= i < |blocks| => Cell(ChangeJson(blocks[i]), Change))
  }

  /** A block joins the last message of its role, or opens a message. */
  function Place(ms: seq<Tagged>, role: string, cell: Cell): seq<Tagged> {
    if ms != [] && ms[|ms| - 1].role == role then
      ms[..|ms| - 1] + [Tagged(role, ms[|ms| - 1].cells + [cell])]
    else ms + [Tagged(role, [cell])]
  }

  function PlaceAll(ms: seq<Tagged>, role: string, cells: seq<Cell>): seq<Tagged> {
    if cells == [] then ms else Place(PlaceAll(ms, role, cells[..|cells| - 1]), role, cells[|cells| - 1])
  }

  /** A tool change may only follow a user or system message. */
  predicate MayChange(ms: seq<Tagged>) {
    ms != [] && ms[|ms| - 1].role in {"user", "system"}
  }

  function RenderOne(env: RenderEnv, b: Body, s: Segment): Result<Body, ErrorKind> {
    if s.ChangeSegment? && !MayChange(b.messages) then Err(InvalidRequest)
    else
      var (role, cells) := CellsOf(env, b.offered, s);
      Ok(Body(PlaceAll(b.messages, role, cells), if s.ChangeSegment? then Apply(s.change, b.offered) else b.offered))
  }

  function RenderAll(env: RenderEnv, b: Body, segments: seq<Segment>): Result<Body, ErrorKind> {
    if segments == [] then Ok(b)
    else
      var past :- RenderAll(env, b, segments[..|segments| - 1]);
      RenderOne(env, past, segments[|segments| - 1])
  }

  // -- messages -----------------------------------------------------------------------------------

  /** Roles alternate and no message is empty. */
  predicate Alternating(ms: seq<Tagged>) {
    && (forall k :: 0 <= k < |ms| ==> ms[k].cells != [])
    && (forall k :: 0 <= k < |ms| - 1 ==> ms[k].role != ms[k + 1].role)
  }

  lemma PlaceAlternates(ms: seq<Tagged>, role: string, cell: Cell)
    requires Alternating(ms)
    ensures Alternating(Place(ms, role, cell))
  {
    var r := Place(ms, role, cell);
    forall k | 0 <= k < |r| - 1 ensures r[k].role != r[k + 1].role {
      if k + 1 < |ms| {
        assert ms[k].role != ms[k + 1].role;
      }
    }
  }

  lemma {:induction false} PlaceAllAlternates(ms: seq<Tagged>, role: string, cells: seq<Cell>)
    requires Alternating(ms)
    ensures Alternating(PlaceAll(ms, role, cells))
    decreases |cells|
  {
    if cells != [] {
      PlaceAllAlternates(ms, role, cells[..|cells| - 1]);
      PlaceAlternates(PlaceAll(ms, role, cells[..|cells| - 1]), role, cells[|cells| - 1]);
    }
  }

  /** Whatever is rendered, roles alternate strictly. */
  lemma {:induction false} RolesAlternate(env: RenderEnv, b: Body, segments: seq<Segment>)
    requires Alternating(b.messages)
    ensures RenderAll(env, b, segments).Ok? ==> Alternating(RenderAll(env, b, segments).value.messages)
    decreases |segments|
  {
    if segments != [] {
      RolesAlternate(env, b, segments[..|segments| - 1]);
      var past := RenderAll(env, b, segments[..|segments| - 1]);
      if past.Ok? {
        var (role, cells) := CellsOf(env, past.value.offered, segments[|segments| - 1]);
        PlaceAllAlternates(past.value.messages, role, cells);
      }
    }
  }

  /** All content blocks in order, each with its message's role. */
  function Flat(ms: seq<Tagged>): seq<(string, Cell)> {
    if ms == [] then [] else Flat(ms[..|ms| - 1]) + Labelled(ms[|ms| - 1].role, ms[|ms| - 1].cells)
  }

  function Labelled(role: string, cells: seq<Cell>): (r: seq<(string, Cell)>)
    ensures |r| == |cells| && forall i :: 0 <= i < |r| ==> r[i] == (role, cells[i])
  {
    seq(|cells|, i requires 0 <= i < |cells| => (role, cells[i]))
  }

  lemma FlatPlace(ms: seq<Tagged>, role: string, cell: Cell)
    ensures Flat(Place(ms, role, cell)) == Flat(ms) + [(role, cell)]
  {
    var r := Place(ms, role, cell);
    if ms != [] && ms[|ms| - 1].role == role {
      var past, cells := ms[..|ms| - 1], ms[|ms| - 1].cells;
      assert r[..|r| - 1] == past;
      assert Labelled(role, cells + [cell]) == Labelled(role, cells) + [(role, cell)];
      Associate(Flat(past), Labelled(role, cells), [(role, cell)]);
    } else {
      assert r[..|r| - 1] == ms;
    }
  }

  lemma {:induction false} FlatPlaceAll(ms: seq<Tagged>, role: string, cells: seq<Cell>)
    ensures Flat(PlaceAll(ms, role, cells)) == Flat(ms) + Labelled(role, cells)
    decreases |cells|
  {
    if cells == [] {
      assert Flat(ms) + [] == Flat(ms);
    } else {
      var past, last := cells[..|cells| - 1], cells[|cells| - 1];
      FlatPlaceAll(ms, role, past);
      FlatPlace(PlaceAll(ms, role, past), role, last);
      assert Labelled(role, cells) == Labelled(role, past) + [(role, last)];
      Associate(Flat(ms), Labelled(role, past), [(role, last)]);
    }
  }

  /** Rendering adds each segment's blocks at the end, in order. */
  lemma OneAppends(env: RenderEnv, b: Body, s: Segment)
    ensures RenderOne(env, b, s).Ok? ==>
              Flat(RenderOne(env, b, s).value.messages) ==
              Flat(b.messages) + Labelled(CellsOf(env, b.offered, s).0, CellsOf(env, b.offered, s).1)
  {
    var (role, cells) := CellsOf(env, b.offered, s);
    FlatPlaceAll(b.messages, role, cells);
  }

  lemma {:induction false} RenderSnoc(env: RenderEnv, b: Body, past: seq<Segment>, s: Segment)
    ensures RenderAll(env, b, past + [s]) ==
            if RenderAll(env, b, past).Err? then RenderAll(env, b, past) else RenderOne(env, RenderAll(env, b, past).value, s)
  {
    assert (past + [s])[..|past|] == past && (past + [s])[|past|] == s;
  }

  lemma {:induction false} RenderJoins(env: RenderEnv, b: Body, first: seq<Segment>, more: seq<Segment>)
    ensures RenderAll(env, b, first + more) ==
            if RenderAll(env, b, first).Err? then RenderAll(env, b, first)
            else RenderAll(env, RenderAll(env, b, first).value, more)
    decreases |more|
  {
    if more == [] {
      NoneLast(first);
    } else {
      var past, last := more[..|more| - 1], more[|more| - 1];
      RenderJoins(env, b, first, past);
      SplitLast(more);
      Associate(first, past, [last]);
      RenderSnoc(env, b, first + past, last);
      if RenderAll(env, b, first).Ok? {
        RenderSnoc(env, RenderAll(env, b, first).value, past, last);
      }
    }
  }

  /** One more segment of a conversation; a refusal is final. */
  lemma {:induction false} RenderNext(env: RenderEnv, b: Body, segments: seq<Segment>, k: nat)
    requires k < |segments| && RenderAll(env, b, segments[..k]).Ok?
    ensures RenderAll(env, b, segments[..k + 1]) == RenderOne(env, RenderAll(env, b, segments[..k]).value, segments[k])
    ensures RenderAll(env, b, segments[..k + 1]).Err? ==> RenderAll(env, b, segments) == RenderAll(env, b, segments[..k + 1])
  {
    TakeMore(segments, k);
    RenderSnoc(env, b, segments[..k], segments[k]);
    Halves(segments, k + 1);
    RenderJoins(env, b, segments[..k + 1], segments[k + 1..]);
  }

  /** What is already rendered stays where it is. */
  lemma {:induction false} RenderGrows(env: RenderEnv, b: Body, segments: seq<Segment>)
    ensures RenderAll(env, b, segments).Ok? ==> Flat(b.messages) <= Flat(RenderAll(env, b, segments).value.messages)
    decreases |segments|
  {
    if segments != [] {
      RenderGrows(env, b, segments[..|segments| - 1]);
      var past := RenderAll(env, b, segments[..|segments| - 1]);
      if past.Ok? {
        OneAppends(env, past.value, segments[|segments| - 1]);
      }
    }
  }

  // -- the imperative form --------------------------------------------------------------------

  function Untagged(ms: seq<Tagged>): (r: seq<WireMessage>)
    ensures |r| == |ms| && forall k :: 0 <= k < |r| ==> r[k] == WireMessage(ms[k].role, BlocksIn(ms[k].cells))
  {
    seq(|ms|, k requires 0 <= k < |ms| => WireMessage(ms[k].role, BlocksIn(ms[k].cells)))
  }

  function BlocksIn(cells: seq<Cell>): (r: seq<Json>)
    ensures |r| == |cells| && forall i :: 0 <= i < |r| ==> r[i] == cells[i].block
  {
    seq(|cells|, i requires 0 <= i < |cells| => cells[i].block)
  }

  lemma UntaggedPlace(ms: seq<Tagged>, role: string, cell: Cell)
    ensures Untagged(Place(ms, role, cell)) ==
            if ms != [] && ms[|ms| - 1].role == role then
              Untagged(ms)[|ms| - 1 := WireMessage(role, BlocksIn(ms[|ms| - 1].cells) + [cell.block])]
            else Untagged(ms) + [WireMessage(role, [cell.block])]
  {
    var r := Place(ms, role, cell);
    if ms != [] && ms[|ms| - 1].role == role {
      assert BlocksIn(ms[|ms| - 1].cells + [cell]) == BlocksIn(ms[|ms| - 1].cells) + [cell.block];
    } else {
      assert BlocksIn([cell]) == [cell.block];
    }
  }

  type Position = (nat, nat)

  /** The positions are those of the blocks of this kind. */
  ghost predicate Marks(ms: seq<Tagged>, kind: Kind, positions: set<Position>) {
    forall m: nat, i: nat :: (m, i) in positions <==> m < |ms| && i < |ms[m].cells| && ms[m].cells[i].kind == kind
  }

  /** Where the next block of a role goes. */
  function NextPosition(ms: seq<Tagged>, role: string): Position {
    if ms != [] && ms[|ms| - 1].role == role then (|ms| - 1, |ms[|ms| - 1].cells|) else (|ms|, 0)
  }

  lemma MarksMore(ms: seq<Tagged>, role: string, cell: Cell, kind: Kind, positions: set<Position>)
    requires Marks(ms, kind, positions)
    ensures Marks(Place(ms, role, cell), kind, positions + if cell.kind == kind then {NextPosition(ms, role)} else {})
  {
    var r, at := Place(ms, role, cell), NextPosition(ms, role);
    var more := positions + if cell.kind == kind then {at} else {};
    forall m: nat, i: nat
      ensures (m, i) in more <==> m < |r| && i < |r[m].cells| && r[m].cells[i].kind == kind
    {
      if m < |ms| && i < |ms[m].cells| {
        assert r[m].cells[i] == ms[m].cells[i];
      }
    }
  }

  /** Messages as the source keeps them, with the positions of sealed and of tool-change blocks. */
  class Messages {
    var messages: seq<WireMessage>
    var sealed: set<Position>
    var changes: set<Position>
    ghost var tagged: seq<Tagged>

    ghost predicate Valid()
      reads this
    {
      messages == Untagged(tagged) && Marks(tagged, Verbatim, sealed) && Marks(tagged, Change, changes)
    }

    constructor ()
      ensures Valid() && tagged == []
    {
      messages, sealed, changes, tagged := [], {}, {}, [];
    }

    /** Appends a block; tells where it went. */
    method Append(role: string, block: Json, ghost kind: Kind) returns (at: Position)
      requires messages == Untagged(tagged)
      modifies this`messages, this`tagged
      ensures messages == Untagged(tagged) && tagged == Place(old(tagged), role, Cell(block, kind))
      ensures at == NextPosition(old(tagged), role)
    {
      if messages != [] && messages[|messages| - 1].role == role {
        var last := |messages| - 1;
        at := (last, |messages[last].content|);
        messages := messages[last := WireMessage(role, messages[last].content + [block])];
      } else {
        at := (|messages|, 0);
        messages := messages + [WireMessage(role, [block])];
      }
      UntaggedPlace(tagged, role, Cell(block, kind));
      tagged := Place(tagged, role, Cell(block, kind));
    }

    method AppendPlain(role: string, block: Json)
      requires Valid()
      modifies this
      ensures Valid() && tagged == Place(old(tagged), role, Cell(block, Plain))
    {
      MarksMore(tagged, role, Cell(block, Plain), Verbatim, sealed);
      MarksMore(tagged, role, Cell(block, Plain), Change, changes);
      var _ := Append(role, block, Plain);
    }

    method AppendSealed(block: Json)
      requires Valid()
      modifies this
      ensures Valid() && tagged == Place(old(tagged), "assistant", Cell(block, Verbatim))
    {
      MarksMore(tagged, "assistant", Cell(block, Verbatim), Verbatim, sealed);
      MarksMore(tagged, "assistant", Cell(block, Verbatim), Change, changes);
      var at := Append("assistant", block, Verbatim);
      sealed := sealed + {at};
    }

    method AppendChange(block: Json)
      requires Valid()
      modifies this
      ensures Valid() && tagged == Place(old(tagged), "system", Cell(block, Change))
    {
      MarksMore(tagged, "system", Cell(block, Change), Verbatim, sealed);
      MarksMore(tagged, "system", Cell(block, Change), Change, changes);
      var at := Append("system", block, Change);
      changes := changes + {at};
    }

    method AppendChanges(blocks: seq<ChangeBlock>)
      requires Valid()
      modifies this
      ensures Valid() && tagged == PlaceAll(old(tagged), "system", ChangeCells(blocks))
    {
      ghost var cells := ChangeCells(blocks);
      var k: nat := 0;
      assert cells[..0] == [];
      while k < |blocks|
        invariant k <= |blocks| && Valid()
        invariant tagged == PlaceAll(old(tagged), "system", cells[..k])
      {
        assert cells[..k + 1][..k] == cells[..k];
        AppendChange(ChangeJson(blocks[k]));
        k := k + 1;
      }
      assert cells[..k] == cells;
    }

    /** One segment, and the tools offered after it. */
    method Render(env: RenderEnv, s: Segment, offered: Tools) returns (after: Result<Tools, ErrorKind>)
      requires Valid()
      modifies this
      ensures match RenderOne(env, Body(old(tagged), offered), s)
              case Err(kind) => after == Err(kind)
              case Ok(body) => Valid() && after == Ok(body.offered) && tagged == body.messages
    {
      after := Ok(offered);
      var (role, cells) := CellsOf(env, offered, s);
      match s {
        case ChangeSegment(change) =>
          if messages == [] || messages[|messages| - 1].role !in {"user", "system"} {
            return Err(InvalidRequest);
          }
          AppendChanges(ChangeBlocks(change, offered));
          var next := ApplyTo(change, offered);
          after := Ok(next);
        case SealedSegment(item) =>
          OneCell(tagged, role, cells);
          AppendSealed(item);
        case _ =>
          if cells != [] {
            OneCell(tagged, role, cells);
            AppendPlain(role, cells[0].block);
          }
      }
    }

    /** The conversation, segment by segment. */
    method RenderConversation(env: RenderEnv, segments: seq<Segment>, declaration: Tools) returns (failed: Option<ErrorKind>)
      requires Valid() && tagged == []
      modifies this
      ensures match RenderAll(env, Body([], declaration), segments)
              case Err(kind) => failed == Some(kind)
              case Ok(body) => failed == None && Valid() && tagged == body.messages
    {
      var offered, k: nat := declaration, 0;
      assert segments[..0] == [];
      while k < |segments|
        invariant k <= |segments| && Valid()
        invariant RenderAll(env, Body([], declaration), segments[..k]) == Ok(Body(tagged, offered))
      {
        RenderNext(env, Body([], declaration), segments, k);
        var after := Render(env, segments[k], offered);
        if after.Err? {
          return Some(after.error);
        }
        offered := after.value;
        k := k + 1;
      }
      assert segments[..k] == segments;
      failed := None;
    }

    /** Backwards in one message, past what may not carry the marker. */
    method PastLastPlain(m: nat) returns (i: nat)
      requires Valid() && m < |messages|
      ensures i <= |tagged[m].cells| && (i > 0 ==> tagged[m].cells[i - 1].kind == Plain)
      ensures forall j :: i <= j < |tagged[m].cells| ==> tagged[m].cells[j].kind != Plain
    {
      ghost var cells := tagged[m].cells;
      i := |messages[m].content|;
      while i > 0 && ((m, i - 1) in sealed || (m, i - 1) in changes)
        invariant i <= |messages[m].content| == |cells|
        invariant forall j :: i <= j < |cells| ==> cells[j].kind != Plain
      {
        i := i - 1;
      }
    }

    /**
     The block the marker goes on: searched backwards from the last message that holds more than
     tool changes, past sealed items and tool changes.
     */
    method Anchor() returns (at: Option<Position>)
      requires Valid()
      ensures match at
              case None => NoPlainFrom(tagged, 0)
              case Some((m, i)) => IsAnchor(tagged, m, i)
    {
      var end := |messages|;
      while end > 0 && OnlyChanges(end - 1)
        invariant 0 <= end <= |messages|
        invariant NoPlainFrom(tagged, end)
      {
        assert AllChanges(tagged[end - 1].cells, end - 1, changes);
        end := end - 1;
      }
      while end > 0
        invariant 0 <= end <= |messages|
        invariant NoPlainFrom(tagged, end)
      {
        var m: nat := end - 1;
        var i := PastLastPlain(m);
        if i > 0 {
          return Some((m, i - 1));
        }
        end := m;
      }
      at := None;
    }

    predicate OnlyChanges(m: nat)
      requires m < |messages|
      reads this
    {
      forall i :: 0 <= i < |messages[m].content| ==> (m, i) in changes
    }
  }

  predicate NoPlainFrom(ms: seq<Tagged>, from: nat) {
    forall m, i :: from <= m < |ms| && 0 <= i < |ms[m].cells| ==> ms[m].cells[i].kind != Plain
  }

  ghost predicate AllChanges(cells: seq<Cell>, m: nat, changes: set<Position>) {
    forall i: nat :: i < |cells| ==> (m, i) in changes
  }

  lemma OneCell(ms: seq<Tagged>, role: string, cells: seq<Cell>)
    requires |cells| == 1
    ensures PlaceAll(ms, role, cells) == Place(ms, role, cells[0])
  {
    assert cells[..0] == [] && PlaceAll(ms, role, []) == ms;
  }

  /** A plain block after which there is no plain block. */
  predicate IsAnchor(ms: seq<Tagged>, m: nat, i: nat) {
    && m < |ms| && i < |ms[m].cells| && ms[m].cells[i].kind == Plain
    && (forall j :: i < j < |ms[m].cells| ==> ms[m].cells[j].kind != Plain)
    && NoPlainFrom(ms, m + 1)
  }

  const MARKER: Json := Obj(map["type" := Str("ephemeral")])

  function Marked(block: Json): Json {
    if block.Obj? then Obj(block.fields["cache_control" := MARKER]) else block
  }

  /** The leading system texts; the last of them carries the marker of a stable prefix. */
  function SystemBlocks(segments: seq<Segment>, stablePrefix: bool): (blocks: seq<Json>)
    requires forall i :: 0 <= i < |segments| ==> IsSystem(segments[i])
    ensures |blocks| == |segments|
  {
    var blocks := seq(|segments|, i requires 0 <= i < |segments| => SystemBlock(segments[i]));
    if stablePrefix && blocks != [] then blocks[|blocks| - 1 := Marked(blocks[|blocks| - 1])] else blocks
  }

  function SystemBlock(s: Segment): Json
    requires IsSystem(s)
  {
    if s.TextSegment? then TextJson(s.text) else ShownJson(s.media)
  }

  function MarkAt(ms: seq<Tagged>, m: nat, i: nat): seq<Tagged>
    requires m < |ms| && i < |ms[m].cells|
  {
    var cell := ms[m].cells[i];
    ms[m := ms[m].(cells := ms[m].cells[i := cell.(block := Marked(cell.block))])]
  }

  /** The marker changes one block, and no sealed item and no tool change. */
  lemma MarkerTouchesOnePlainBlock(ms: seq<Tagged>, m: nat, i: nat, n: nat, j: nat)
    requires IsAnchor(ms, m, i) && n < |ms| && j < |ms[n].cells|
    ensures var marked := MarkAt(ms, m, i);
            && |marked| == |ms| && marked[n].role == ms[n].role && |marked[n].cells| == |ms[n].cells|
            && marked[n].cells[j].kind == ms[n].cells[j].kind
            && ((n, j) != (m, i) ==> marked[n].cells[j] == ms[n].cells[j])
            && (ms[n].cells[j].kind != Plain ==> marked[n].cells[j] == ms[n].cells[j])
  {
  }
}
