/** What a rendered request says about the tools on offer: its changes are those of the frame, in place and in order. */
module OfferedTools {
  import opened Wrappers
  import opened Sequences
  import opened Json
  import opened Model
  import opened Blocks
  import opened ToolSets
  import opened ToolPlan
  import opened Segments
  import opened AnthropicWire
  import ResponsesWire

  // -- the changes among the segments -----------------------------------------------------------

  function ChangesIn(segments: seq<Segment>): seq<ToolSetChange> {
    if segments == [] then []
    else
      var past, last := ChangesIn(segments[..|segments| - 1]), segments[|segments| - 1];
      if last.ChangeSegment? then past + [last.change] else past
  }

  lemma {:induction false} ChangesJoin(a: seq<Segment>, b: seq<Segment>)
    ensures ChangesIn(a + b) == ChangesIn(a) + ChangesIn(b)
    decreases |b|
  {
    if b == [] {
      assert a + b == a;
    } else {
      assert (a + b)[..|a + b| - 1] == a + b[..|b| - 1];
      ChangesJoin(a, b[..|b| - 1]);
    }
  }

  lemma {:induction false} NoChanges(segments: seq<Segment>)
    requires forall i :: 0 <= i < |segments| ==> !segments[i].ChangeSegment?
    ensures ChangesIn(segments) == []
    decreases |segments|
  {
    if segments != [] {
      NoChanges(segments[..|segments| - 1]);
    }
  }

  lemma {:induction false} PartsAreNoChanges(env: RenderEnv, role: Role, all: seq<ContentPart>, n: nat, block: nat,
                                             wire: Option<Json>, format: string)
    requires n <= |all|
    ensures forall s :: s in PartSegments(env, role, all, n, block, wire, format) ==> !s.ChangeSegment?
    decreases n
  {
    if n > 0 {
      PartsAreNoChanges(env, role, all, n - 1, block, wire, format);
    }
  }

  /** The changes that show in place: all but the first, which is the declaration. */
  function InPlace(changes: seq<ToolSetChange>, inPlace: bool): seq<ToolSetChange> {
    if inPlace && changes != [] then changes[1..] else []
  }

  lemma BlockShows(env: RenderEnv, all: seq<Block>, i: nat, format: string, inPlace: bool)
    requires i < |all|
    ensures ChangesIn(BlockSegments(env, all, i, format, inPlace)) ==
            if all[i].content.ToolsChanged? && inPlace && ChangesOf(all[..i]) != [] then [all[i].content.change] else []
  {
    var segments, b := BlockSegments(env, all, i, format, inPlace), all[i];
    match b.content
    case Message(role, parts) =>
      PartsAreNoChanges(env, role, parts, |parts|, i, if role.Assistant? then OwnWire(b, format) else None, format);
      NoChanges(segments);
    case ToolsChanged(change) =>
      if segments != [] {
        assert segments[..0] == [];
      }
    case _ =>
      NoChanges(segments);
  }

  lemma ShownMore(changes: seq<ToolSetChange>, change: ToolSetChange, inPlace: bool)
    ensures InPlace(changes + [change], inPlace) ==
            InPlace(changes, inPlace) + if inPlace && changes != [] then [change] else []
  {
  }

  lemma ChangesUpTo(all: seq<Block>, n: nat)
    requires 0 < n <= |all|
    ensures ChangesOf(all[..n]) ==
            ChangesOf(all[..n - 1]) + if all[n - 1].content.ToolsChanged? then [all[n - 1].content.change] else []
  {
    assert all[..n][..n - 1] == all[..n - 1];
  }

  /** The segments of a frame hold the changes that show, in the frame's order. */
  lemma {:induction false} FrameShows(env: RenderEnv, all: seq<Block>, n: nat, format: string, inPlace: bool)
    requires n <= |all|
    ensures ChangesIn(SegmentsOf(env, all, 0, n, format, inPlace)) == InPlace(ChangesOf(all[..n]), inPlace)
    decreases n
  {
    if n > 0 {
      var i := n - 1;
      FrameShows(env, all, i, format, inPlace);
      BlockShows(env, all, i, format, inPlace);
      ChangesJoin(SegmentsOf(env, all, 0, i, format, inPlace), BlockSegments(env, all, i, format, inPlace));
      ChangesUpTo(all, n);
      if all[i].content.ToolsChanged? {
        ShownMore(ChangesOf(all[..i]), all[i].content.change, inPlace);
      }
    }
  }

  /** The leading system run holds no change. */
  lemma LeadingShowsNone(segments: seq<Segment>)
    ensures ChangesIn(segments[LeadingSystem(segments)..]) == ChangesIn(segments)
  {
    var n := LeadingSystem(segments);
    NoChanges(segments[..n]);
    ChangesJoin(segments[..n], segments[n..]);
    Halves(segments, n);
  }

  // -- Anthropic: change blocks in the messages -------------------------------------------------

  /** The content blocks that tell of tool changes, in order. */
  function ChangesAmong(flat: seq<(string, Cell)>): seq<Cell> {
    if flat == [] then []
    else
      var past, last := ChangesAmong(flat[..|flat| - 1]), flat[|flat| - 1].1;
      if last.kind.Change? then past + [last] else past
  }

  lemma {:induction false} AmongJoin(a: seq<(string, Cell)>, b: seq<(string, Cell)>)
    ensures ChangesAmong(a + b) == ChangesAmong(a) + ChangesAmong(b)
    decreases |b|
  {
    if b == [] {
      assert a + b == a;
    } else {
      assert (a + b)[..|a + b| - 1] == a + b[..|b| - 1];
      AmongJoin(a, b[..|b| - 1]);
    }
  }

  lemma {:induction false} AmongLabelled(role: string, cells: seq<Cell>, all: bool)
    requires forall i :: 0 <= i < |cells| ==> cells[i].kind.Change? == all
    ensures ChangesAmong(Labelled(role, cells)) == if all then cells else []
    decreases |cells|
  {
    if cells != [] {
      var past := cells[..|cells| - 1];
      assert Labelled(role, cells)[..|cells| - 1] == Labelled(role, past);
      AmongLabelled(role, past, all);
    }
  }

  /** Only a change renders to change blocks. */
  lemma SegmentTells(env: RenderEnv, offered: Tools, s: Segment)
    ensures var (role, cells) := CellsOf(env, offered, s);
            ChangesAmong(Labelled(role, cells)) ==
            if s.ChangeSegment? then ChangeCells(ChangeBlocks(s.change, offered)) else []
  {
    var (role, cells) := CellsOf(env, offered, s);
    AmongLabelled(role, cells, s.ChangeSegment?);
  }

  lemma ChangeCellsJoin(a: seq<ChangeBlock>, b: seq<ChangeBlock>)
    ensures ChangeCells(a + b) == ChangeCells(a) + ChangeCells(b)
  {
  }

  /** The conversation holds the blocks of its changes, each made against what is offered at its place. */
  lemma {:induction false} ConversationTells(env: RenderEnv, declaration: Tools, segments: seq<Segment>)
    requires RenderAll(env, Body([], declaration), segments).Ok?
    ensures var body := RenderAll(env, Body([], declaration), segments).value;
            && body.offered == Fold(ChangesIn(segments), declaration)
            && ChangesAmong(Flat(body.messages)) == ChangeCells(InPlaceBlocks(ChangesIn(segments), declaration))
    decreases |segments|
  {
    if segments != [] {
      var past, last := segments[..|segments| - 1], segments[|segments| - 1];
      ConversationTells(env, declaration, past);
      var before := RenderAll(env, Body([], declaration), past).value;
      OneAppends(env, before, last);
      var (role, cells) := CellsOf(env, before.offered, last);
      AmongJoin(Flat(before.messages), Labelled(role, cells));
      SegmentTells(env, before.offered, last);
      if last.ChangeSegment? {
        ChangesLonger(ChangesIn(past), last.change, declaration);
      }
    }
  }

  lemma ChangesLonger(past: seq<ToolSetChange>, change: ToolSetChange, declaration: Tools)
    ensures Fold(past + [change], declaration) == Apply(change, Fold(past, declaration))
    ensures ChangeCells(InPlaceBlocks(past + [change], declaration)) ==
            ChangeCells(InPlaceBlocks(past, declaration)) + ChangeCells(ChangeBlocks(change, Fold(past, declaration)))
  {
    assert (past + [change])[..|past|] == past;
    ChangeCellsJoin(InPlaceBlocks(past, declaration), ChangeBlocks(change, Fold(past, declaration)));
  }

  // -- reading the change blocks back -----------------------------------------------------------

  /** What a change block says. */
  function ChangeSaid(block: Json): Option<ChangeBlock> {
    var tool := if Get(block, "tool").Some? then Get(block, "tool").value else Null;
    if StrOf(block, "type") == Some("tool_removal") then
      (if StrOf(tool, "name").Some? then Some(Removal(StrOf(tool, "name").value)) else None)
    else if StrOf(block, "type") == Some("tool_addition") && Get(tool, "definition").Some? then
      DefinitionSaid(Get(tool, "definition").value)
    else None
  }

  function DefinitionSaid(d: Json): Option<ChangeBlock> {
    if StrOf(d, "name").None? || StrOf(d, "description").None? || Get(d, "input_schema").None? then None
    else Some(Addition(ToolDefinition(StrOf(d, "name").value, StrOf(d, "description").value, Get(d, "input_schema").value)))
  }

  lemma DefinitionReadBack(d: ToolDefinition)
    ensures DefinitionSaid(DefinitionJson(d)) == Some(Addition(d))
  {
    var j := DefinitionJson(d);
    assert Get(j, "name") == Some(Str(d.name)) && Get(j, "description") == Some(Str(d.description));
    assert Get(j, "input_schema") == Some(d.parameters);
  }

  lemma ChangeReadBack(c: ChangeBlock)
    ensures ChangeSaid(ChangeJson(c)) == Some(c)
  {
    var j := ChangeJson(c);
    match c
    case Removal(name) =>
      var tool := Obj(map["type" := Str("tool_reference"), "name" := Str(name)]);
      assert Get(j, "type") == Some(Str("tool_removal")) && Get(j, "tool") == Some(tool) && Get(tool, "name") == Some(Str(name));
    case Addition(d) =>
      var tool := Obj(map["type" := Str("tool_definition"), "definition" := DefinitionJson(d)]);
      assert Get(j, "type") == Some(Str("tool_addition")) && Get(j, "tool") == Some(tool);
      assert Get(tool, "definition") == Some(DefinitionJson(d));
      DefinitionReadBack(d);
  }

  /** The definition on offer under a name to whoever reads the change blocks in order. */
  function OfferedAfter(cells: seq<Cell>, before: Option<ToolDefinition>, name: string): Option<ToolDefinition> {
    if cells == [] then before
    else
      var past, said := OfferedAfter(cells[..|cells| - 1], before, name), ChangeSaid(cells[|cells| - 1].block);
      if said.None? then past
      else
        match said.value
        case Removal(gone) => if gone == name then None else past
        case Addition(d) => if d.name == name then Some(d) else past
  }

  lemma {:induction false} OfferedIsRead(blocks: seq<ChangeBlock>, before: Option<ToolDefinition>, name: string)
    ensures OfferedAfter(ChangeCells(blocks), before, name) == Read(blocks, before, name)
    decreases |blocks|
  {
    if blocks != [] {
      var past, last := blocks[..|blocks| - 1], blocks[|blocks| - 1];
      assert ChangeCells(blocks)[..|blocks| - 1] == ChangeCells(past);
      OfferedIsRead(past, before, name);
      ChangeReadBack(last);
    }
  }

  // -- Responses: additional tools among the items ----------------------------------------------

  function TagAll(items: seq<Json>, kind: Kind): (cells: seq<Cell>)
    ensures |cells| == |items| && forall i :: 0 <= i < |cells| ==> cells[i] == Cell(items[i], kind)
  {
    seq(|items|, i requires 0 <= i < |items| => Cell(items[i], kind))
  }

  /** The items the front adds, marked by whether a change adds them. */
  function FrontCells(env: RenderEnv, input: ResponsesWire.Input, segments: seq<Segment>, leading: bool): seq<Cell>
    requires segments != []
  {
    ResponsesWire.StepGrows(env, input, segments, leading);
    TagAll(ResponsesWire.Step(env, input, segments, leading).items[|input.items|..],
           if segments[0].ChangeSegment? then Change else Plain)
  }

  /** All items the walk adds, so marked. */
  function ItemCells(env: RenderEnv, input: ResponsesWire.Input, segments: seq<Segment>, leading: nat): seq<Cell>
    decreases |segments|
  {
    if segments == [] then []
    else
      FrontCells(env, input, segments, leading > 0)
      + ItemCells(env, ResponsesWire.Step(env, input, segments, leading > 0), segments[ResponsesWire.Taken(segments)..],
                  if leading > 0 then leading - 1 else 0)
  }

  lemma FrontAdds(env: RenderEnv, input: ResponsesWire.Input, segments: seq<Segment>, leading: bool)
    requires segments != []
    ensures ResponsesWire.Step(env, input, segments, leading).items ==
            input.items + BlocksIn(FrontCells(env, input, segments, leading))
  {
    ResponsesWire.StepGrows(env, input, segments, leading);
  }

  lemma BlocksJoin(a: seq<Cell>, b: seq<Cell>)
    ensures BlocksIn(a + b) == BlocksIn(a) + BlocksIn(b)
  {
  }

  /** The marked items are the items of the walk. */
  lemma {:induction false} CellsAreItems(env: RenderEnv, input: ResponsesWire.Input, segments: seq<Segment>, leading: nat)
    ensures ResponsesWire.Walk(env, input, segments, leading).items == input.items + BlocksIn(ItemCells(env, input, segments, leading))
    decreases |segments|
  {
    if segments == [] {
      assert input.items + [] == input.items;
    } else {
      var next := ResponsesWire.Step(env, input, segments, leading > 0);
      var left := if leading > 0 then leading - 1 else 0;
      var rest := segments[ResponsesWire.Taken(segments)..];
      var front, more := FrontCells(env, input, segments, leading > 0), ItemCells(env, next, rest, left);
      FrontAdds(env, input, segments, leading > 0);
      CellsAreItems(env, next, rest, left);
      BlocksJoin(front, more);
      Associate(input.items, BlocksIn(front), BlocksIn(more));
    }
  }

  function ToolJsons(tools: Tools): (r: seq<Json>)
    ensures |r| == |tools| && forall i :: 0 <= i < |r| ==> r[i] == ResponsesWire.ToolJson(tools[i])
  {
    seq(|tools|, i requires 0 <= i < |tools| => ResponsesWire.ToolJson(tools[i]))
  }

  function ToolsIn(item: Json): seq<Json> {
    var tools := Get(item, "tools");
    if tools.Some? && tools.value.Arr? then tools.value.items else []
  }

  /** The tools the changes among the items list, in order. */
  function Listed(cells: seq<Cell>): seq<Json> {
    if cells == [] then [] else (if cells[0].kind.Change? then ToolsIn(cells[0].block) else []) + Listed(cells[1..])
  }

  lemma {:induction false} ListedJoin(a: seq<Cell>, b: seq<Cell>)
    ensures Listed(a + b) == Listed(a) + Listed(b)
    decreases |a|
  {
    if a == [] {
      assert a + b == b;
    } else {
      assert (a + b)[1..] == a[1..] + b;
      ListedJoin(a[1..], b);
    }
  }

  lemma {:induction false} PlainListsNothing(cells: seq<Cell>)
    requires forall i :: 0 <= i < |cells| ==> cells[i].kind.Plain?
    ensures Listed(cells) == []
    decreases |cells|
  {
    if cells != [] {
      PlainListsNothing(cells[1..]);
    }
  }

  /** A change lists exactly what it adds. */
  lemma AddedAreListed(added: Tools)
    ensures Listed(TagAll(ResponsesWire.AddedTools(added), Change)) == ToolJsons(added)
  {
    var items := ResponsesWire.AddedTools(added);
    if added != [] {
      var item := items[0];
      assert Get(item, "tools") == Some(Arr(ToolJsons(added)));
      assert TagAll(items, Change)[1..] == [];
    }
  }

  lemma {:induction false} FrontLists(env: RenderEnv, input: ResponsesWire.Input, segments: seq<Segment>, leading: bool)
    requires segments != []
    ensures var taken := segments[..ResponsesWire.Taken(segments)];
            Listed(FrontCells(env, input, segments, leading)) == ToolJsons(AddedIn(ChangesIn(taken)))
  {
    var s, n := segments[0], ResponsesWire.Taken(segments);
    ResponsesWire.StepGrows(env, input, segments, leading);
    if s.ChangeSegment? {
      assert segments[..n] == [s] && [s][..0] == [];
      assert ResponsesWire.Step(env, input, segments, leading).items[|input.items|..] == ResponsesWire.AddedTools(s.change.added);
      AddedAreListed(s.change.added);
      assert ChangesIn([s]) == [s.change] && [s.change][1..] == [];
      assert s.change.added + [] == s.change.added;
    } else {
      NoChanges(segments[..n]);
      PlainListsNothing(FrontCells(env, input, segments, leading));
    }
  }

  lemma {:induction false} AddedJoin(a: seq<ToolSetChange>, b: seq<ToolSetChange>)
    ensures AddedIn(a + b) == AddedIn(a) + AddedIn(b)
    decreases |a|
  {
    if a == [] {
      assert a + b == b;
    } else {
      assert (a + b)[1..] == a[1..] + b;
      AddedJoin(a[1..], b);
      Associate(a[0].added, AddedIn(a[1..]), AddedIn(b));
    }
  }

  lemma ToolJsonsJoin(a: Tools, b: Tools)
    ensures ToolJsons(a + b) == ToolJsons(a) + ToolJsons(b)
  {
  }

  /** The items of a walk list the tools its changes add, in order. */
  lemma {:induction false} WalkLists(env: RenderEnv, input: ResponsesWire.Input, segments: seq<Segment>, leading: nat)
    ensures Listed(ItemCells(env, input, segments, leading)) == ToolJsons(AddedIn(ChangesIn(segments)))
    decreases |segments|
  {
    if segments != [] {
      var n := ResponsesWire.Taken(segments);
      var next := ResponsesWire.Step(env, input, segments, leading > 0);
      var left := if leading > 0 then leading - 1 else 0;
      FrontLists(env, input, segments, leading > 0);
      WalkLists(env, next, segments[n..], left);
      ListedJoin(FrontCells(env, input, segments, leading > 0), ItemCells(env, next, segments[n..], left));
      ChangesSplit(segments[..n], segments[n..]);
      Halves(segments, n);
    }
  }

  lemma ChangesSplit(a: seq<Segment>, b: seq<Segment>)
    ensures ToolJsons(AddedIn(ChangesIn(a + b))) == ToolJsons(AddedIn(ChangesIn(a))) + ToolJsons(AddedIn(ChangesIn(b)))
  {
    ChangesJoin(a, b);
    AddedJoin(ChangesIn(a), ChangesIn(b));
    ToolJsonsJoin(AddedIn(ChangesIn(a)), AddedIn(ChangesIn(b)));
  }
}
