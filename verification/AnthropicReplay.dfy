/**
 What an Anthropic response becomes when it is sent back: parsed, committed as blocks and rendered,
 the content array comes back block for block.
 */
module AnthropicReplay {
  import opened Wrappers
  import opened Sequences
  import opened Json
  import opened Model
  import opened Blocks
  import opened Conversion
  import opened AnthropicParse
  import opened AnthropicWire
  import opened Segments

  /** A text block whose text trims to nothing. */
  predicate BlankText(env: RenderEnv, block: Json) {
    TypeOf(block).TextBlock? && StrOf(block, "text").Some? && env.names.blank(StrOf(block, "text").value)
  }

  /** A content block as it is sent back: a tool use without `input` gains an empty one. */
  function AsSent(block: Json): Json {
    if TypeOf(block).ToolUseBlock? && block.Obj? && Get(block, "input").None? then Obj(block.fields["input" := Obj(map[])])
    else block
  }

  /** Each block as it is sent back; blank texts are not. */
  function Replayed(env: RenderEnv, content: seq<Json>): seq<(string, Cell)> {
    if content == [] then []
    else ReplayedOne(env, content[0]) + Replayed(env, content[1..])
  }

  function ReplayedOne(env: RenderEnv, block: Json): seq<(string, Cell)> {
    if BlankText(env, block) then [] else [("assistant", Cell(AsSent(block), CellKind(block)))]
  }

  function CellKind(block: Json): Kind {
    if TypeOf(block).TextBlock? || TypeOf(block).ToolUseBlock? then Plain else Verbatim
  }

  /** The array itself, block for block, without its blank texts. */
  function Unchanged(env: RenderEnv, content: seq<Json>): seq<(string, Cell)> {
    if content == [] then []
    else (if BlankText(env, content[0]) then [] else [("assistant", Cell(content[0], CellKind(content[0])))])
         + Unchanged(env, content[1..])
  }

  /** Every tool use carries an input. */
  predicate InputsPresent(content: seq<Json>) {
    forall k :: 0 <= k < |content| && TypeOf(content[k]).ToolUseBlock? ==> Get(content[k], "input").Some?
  }

  /** A block comes back as it was exactly when it is no tool use without an input. */
  lemma AsSentExactly(block: Json)
    ensures AsSent(block) == block <==> !(TypeOf(block).ToolUseBlock? && Get(block, "input").None?)
  {
    if TypeOf(block).ToolUseBlock? && Get(block, "input").None? {
      assert block.Obj? && "input" !in block.fields;
    }
  }

  /** Of all parsed content arrays, exactly those whose tool uses carry an input come back unchanged. */
  lemma {:induction false} ReplayedExactly(env: RenderEnv, content: seq<Json>)
    ensures |Replayed(env, content)| == |Unchanged(env, content)|
    ensures Replayed(env, content) == Unchanged(env, content) <==> InputsPresent(content)
    decreases |content|
  {
    if content != [] {
      var first, rest := content[0], content[1..];
      ReplayedExactly(env, rest);
      AsSentExactly(first);
      InputsFirst(content);
      if !BlankText(env, first) {
        var a, b := ReplayedOne(env, first)[0], ("assistant", Cell(first, CellKind(first)));
        SamePairs(a, Replayed(env, rest), b, Unchanged(env, rest));
      } else {
        assert [] + Replayed(env, rest) == Replayed(env, rest) && [] + Unchanged(env, rest) == Unchanged(env, rest);
      }
    }
  }

  lemma InputsFirst(content: seq<Json>)
    requires content != []
    ensures InputsPresent(content) <==>
            !(TypeOf(content[0]).ToolUseBlock? && Get(content[0], "input").None?) && InputsPresent(content[1..])
  {
    assert content == [content[0]] + content[1..];
  }

  lemma SamePairs<T>(a: T, r: seq<T>, b: T, s: seq<T>)
    ensures [a] + r == [b] + s <==> a == b && r == s
  {
    if [a] + r == [b] + s {
      assert ([a] + r)[0] == a && ([a] + r)[1..] == r;
      assert ([b] + s)[0] == b && ([b] + s)[1..] == s;
    }
  }

  /**
   A parsed tool use becomes a call the context takes, and comes back as it was, exactly when it
   has an object `input`; without one it comes back with an empty input.
   */
  lemma ToolUseExactly(block: Json)
    requires TypeOf(block).ToolUseBlock? && ParseBlock(block).Ok?
    ensures var item := ParseBlock(block).value;
            item.content.ToolCall?
            && (item.content.call.arguments.Obj? && AsSent(block) == block <==> IsObj(Get(block, "input")))
            && (Get(block, "input").None? ==> item.content.call.arguments == Obj(map[]) && AsSent(block) != block)
  {
    AsSentExactly(block);
  }

  /** Such a block: accepted, and sent back with an `input` it never had. */
  lemma MissingInputGained(block: Json)
    requires block == Obj(map["type" := Str("tool_use"), "id" := Str("a"), "name" := Str("f")])
    ensures ParseBlock(block).Ok? && AsSent(block) == Obj(block.fields["input" := Obj(map[])]) && AsSent(block) != block
  {
    AsSentExactly(block);
  }

  // -- one content block --------------------------------------------------------------------

  lemma ObjectRebuilt(block: Json, fields: Fields, keys: set<string>)
    requires block.Obj? && fields - keys == block.fields - keys
    requires forall k :: k in keys ==> (k in fields <==> k in block.fields) && (k in fields ==> fields[k] == block.fields[k])
    ensures Obj(fields) == block
  {
    forall k ensures k in fields <==> k in block.fields {
      if k !in keys {
        assert k in fields <==> k in fields - keys;
        assert k in block.fields <==> k in block.fields - keys;
      }
    }
    forall k | k in fields ensures fields[k] == block.fields[k] {
      if k !in keys {
        assert (fields - keys)[k] == fields[k] && (block.fields - keys)[k] == block.fields[k];
      }
    }
    assert fields == block.fields;
  }

  lemma TextComesBack(block: Json, text: string)
    requires TypeOf(block).TextBlock? && StrOf(block, "text") == Some(text)
    ensures AssistantText(text, 1, Some(Without(block, {"text"}))) == block
  {
    var rest := block.fields - {"text"};
    assert "type" in rest && OrInsert(rest, "type", Str("text")) == rest;
    var fields := rest["text" := Str(text)];
    assert fields - {"text"} == block.fields - {"text"};
    ObjectRebuilt(block, fields, {"text"});
  }

  lemma ToolUseComesBack(block: Json, id: string, name: string, input: Json)
    requires TypeOf(block).ToolUseBlock? && StrOf(block, "id") == Some(id) && StrOf(block, "name") == Some(name)
    requires Get(AsSent(block), "input") == Some(input)
    ensures ToolUseJson(id, name, input, Some(Without(block, {"id", "name", "input"}))) == AsSent(block)
  {
    var keys, sent := {"id", "name", "input"}, AsSent(block);
    var rest := block.fields - keys;
    assert "type" in rest && OrInsert(rest, "type", Str("tool_use")) == rest;
    var fields := rest["id" := Str(id)]["name" := Str(name)]["input" := input];
    assert sent.fields - keys == block.fields - keys;
    assert fields - keys == sent.fields - keys;
    ObjectRebuilt(sent, fields, keys);
  }

  function SegmentCells(env: RenderEnv, offered: seq<ToolDefinition>, segments: seq<Segment>): seq<(string, Cell)> {
    if segments == [] then []
    else
      SegmentCells(env, offered, segments[..|segments| - 1])
      + Labelled(CellsOf(env, offered, segments[|segments| - 1]).0, CellsOf(env, offered, segments[|segments| - 1]).1)
  }

  /** Segments of a model's blocks: they never fail to render and change no tools. */
  predicate FromAssistant(s: Segment) {
    (s.TextSegment? && s.role.Assistant?) || s.SealedSegment? || s.CallSegment?
  }

  lemma {:induction false} AssistantRenders(env: RenderEnv, b: Body, segments: seq<Segment>)
    requires AllFromAssistant(segments)
    ensures var r := RenderAll(env, b, segments);
            r.Ok? && r.value.offered == b.offered
            && Flat(r.value.messages) == Flat(b.messages) + SegmentCells(env, b.offered, segments)
    decreases |segments|
  {
    if segments == [] {
      assert Flat(b.messages) + [] == Flat(b.messages);
    } else {
      var past, last := segments[..|segments| - 1], segments[|segments| - 1];
      AssistantRenders(env, b, past);
      OneAppends(env, RenderAll(env, b, past).value, last);
      Associate(Flat(b.messages), SegmentCells(env, b.offered, past),
                Labelled(CellsOf(env, b.offered, last).0, CellsOf(env, b.offered, last).1));
    }
  }

  lemma {:induction false} CellsJoin(env: RenderEnv, offered: seq<ToolDefinition>, a: seq<Segment>, b: seq<Segment>)
    ensures SegmentCells(env, offered, a + b) == SegmentCells(env, offered, a) + SegmentCells(env, offered, b)
    decreases |b|
  {
    if b == [] {
      assert a + b == a;
    } else {
      var all, past, last := a + b, b[..|b| - 1], b[|b| - 1];
      assert all[..|all| - 1] == a + past;
      CellsJoin(env, offered, a, past);
      Associate(SegmentCells(env, offered, a), SegmentCells(env, offered, past),
                Labelled(CellsOf(env, offered, last).0, CellsOf(env, offered, last).1));
    }
  }

  lemma CellsOfOne(env: RenderEnv, offered: seq<ToolDefinition>, s: Segment)
    ensures SegmentCells(env, offered, [s]) == Labelled(CellsOf(env, offered, s).0, CellsOf(env, offered, s).1)
  {
    assert [s][..0] == [];
    var cells := Labelled(CellsOf(env, offered, s).0, CellsOf(env, offered, s).1);
    assert [] + cells == cells;
  }

  /** The segments of a block made from a content block render to that content block. */
  lemma {:induction false} BlockComesBack(env: RenderEnv, inPlace: bool, offered: seq<ToolDefinition>, all: seq<Block>, i: nat,
                                          block: Json, item: ModelItem, id: BlockId)
    requires EmptyIsBlank(env) && ParseBlock(block) == Ok(item) && Commits(item)
    requires i < |all| && all[i] == BlockOf(item, id)
    ensures var segments := BlockSegments(env, all, i, ANTHROPIC, inPlace);
            && AllFromAssistant(segments)
            && SegmentCells(env, offered, segments) == ReplayedOne(env, block)
  {
    match TypeOf(block)
    case TextBlock => TextBlockComesBack(env, inPlace, offered, all, i, block, item, id);
    case ToolUseBlock =>
      ToolUseComesBack(block, StrOf(block, "id").value, StrOf(block, "name").value, Get(AsSent(block), "input").value);
      CellsOfOne(env, offered, BlockSegments(env, all, i, ANTHROPIC, inPlace)[0]);
    case _ => SealedComesBack(env, inPlace, offered, all, i, block, item, id);
  }

  /** The segment of a text block. */
  function TextSegmentOf(block: Json, text: string, i: nat): Segment {
    TextSegment(Assistant, text, i, 1, Some(Without(block, {"text"})))
  }

  lemma {:induction false} TextIsOneSegment(env: RenderEnv, inPlace: bool, all: seq<Block>, i: nat, block: Json, text: string,
                                            item: ModelItem, id: BlockId)
    requires TypeOf(block).TextBlock? && StrOf(block, "text") == Some(text) && ParseBlock(block) == Ok(item) && Commits(item)
    requires i < |all| && all[i] == BlockOf(item, id)
    ensures BlockSegments(env, all, i, ANTHROPIC, inPlace) == [TextSegmentOf(block, text, i)]
  {
    KeptOne(Text(text));
    OnePart(env, Text(text), i, Some(Without(block, {"text"})), ANTHROPIC);
  }

  lemma {:induction false} TextSegmentSends(env: RenderEnv, offered: seq<ToolDefinition>, block: Json, text: string, i: nat)
    requires TypeOf(block).TextBlock? && StrOf(block, "text") == Some(text)
    ensures SegmentCells(env, offered, [TextSegmentOf(block, text, i)]) == ReplayedOne(env, block)
  {
    TextComesBack(block, text);
    CellsOfOne(env, offered, TextSegmentOf(block, text, i));
  }

  lemma {:induction false} TextBlockComesBack(env: RenderEnv, inPlace: bool, offered: seq<ToolDefinition>,
                                              all: seq<Block>, i: nat,
                                              block: Json, item: ModelItem, id: BlockId)
    requires TypeOf(block).TextBlock? && ParseBlock(block) == Ok(item) && Commits(item)
    requires i < |all| && all[i] == BlockOf(item, id)
    ensures var segments := BlockSegments(env, all, i, ANTHROPIC, inPlace);
            && AllFromAssistant(segments)
            && SegmentCells(env, offered, segments) == ReplayedOne(env, block)
  {
    var text := StrOf(block, "text").value;
    TextIsOneSegment(env, inPlace, all, i, block, text, item, id);
    TextSegmentSends(env, offered, block, text, i);
  }

  lemma {:induction false} SealedComesBack(env: RenderEnv, inPlace: bool, offered: seq<ToolDefinition>, all: seq<Block>, i: nat,
                                           block: Json, item: ModelItem, id: BlockId)
    requires item == SealedItem(ANTHROPIC, block) && !TypeOf(block).TextBlock? && !TypeOf(block).ToolUseBlock?
    requires i < |all| && all[i] == BlockOf(item, id)
    ensures var segments := BlockSegments(env, all, i, ANTHROPIC, inPlace);
            && AllFromAssistant(segments)
            && SegmentCells(env, offered, segments) == ReplayedOne(env, block)
  {
    KeptOne(Sealed(ANTHROPIC, block));
    OnePart(env, Sealed(ANTHROPIC, block), i, None, ANTHROPIC);
    assert BlockSegments(env, all, i, ANTHROPIC, inPlace) == [SealedSegment(block)];
    CellsOfOne(env, offered, SealedSegment(block));
  }

  // -- the content array --------------------------------------------------------------------------

  /** One content block further: its own segments, then those of the rest. */
  lemma OneMoreBlock(env: RenderEnv, inPlace: bool, offered: seq<ToolDefinition>, all: seq<Block>, at: nat, end: nat,
                     block: Json, rest: seq<(string, Cell)>)
    requires at < end <= |all|
    requires var head := BlockSegments(env, all, at, ANTHROPIC, inPlace);
             AllFromAssistant(head) && SegmentCells(env, offered, head) == ReplayedOne(env, block)
    requires Returns(env, inPlace, offered, all, at + 1, end, rest)
    ensures Returns(env, inPlace, offered, all, at, end, ReplayedOne(env, block) + rest)
  {
    var head, tail := BlockSegments(env, all, at, ANTHROPIC, inPlace), SegmentsOf(env, all, at + 1, end, ANTHROPIC, inPlace);
    FirstBlock(env, all, at, end, ANTHROPIC, inPlace);
    CellsJoin(env, offered, head, tail);
    AssistantJoin(head, tail);
  }

  lemma ParseRest(content: seq<Json>, items: seq<ModelItem>)
    requires content != [] && ParseBlocks(content) == Ok(items)
    ensures items != [] && ParseBlock(content[0]) == Ok(items[0]) && ParseBlocks(content[1..]) == Ok(items[1..])
  {
  }

  /** The segments of an answer's blocks, wherever they stand in the frame. */
  lemma {:induction false} ContentComesBack(env: RenderEnv, inPlace: bool, offered: seq<ToolDefinition>, all: seq<Block>,
                                            at: nat, end: nat, content: seq<Json>, items: seq<ModelItem>,
                                            ids: seq<BlockId>, answer: seq<Block>)
    requires EmptyIsBlank(env)
    requires ParseBlocks(content) == Ok(items) && |ids| == BlockCount(items) && answer == BlocksFor(items, ids)
    requires StandsAt(all, at, answer) && end == at + |answer|
    ensures Returns(env, inPlace, offered, all, at, end, Replayed(env, content))
    decreases |content|
  {
    if content == [] {
    } else {
      ParseRest(content, items);
      if Commits(items[0]) {
        BlocksForRest(items, ids);
        StandsFirst(all, at, answer);
        BlockComesBack(env, inPlace, offered, all, at, content[0], items[0], ids[0]);
        ContentComesBack(env, inPlace, offered, all, at + 1, end, content[1..], items[1..], ids[1..], answer[1..]);
        OneMoreBlock(env, inPlace, offered, all, at, end, content[0], Replayed(env, content[1..]));
      } else {
        DroppedIsBlank(env, content[0], items[0]);
        ContentComesBack(env, inPlace, offered, all, at, end, content[1..], items[1..], ids, answer);
        assert [] + Replayed(env, content[1..]) == Replayed(env, content[1..]);
      }
    }
  }

  /** The blocks from `at` to `end` are assistant blocks that render to `cells`. */
  predicate Returns(env: RenderEnv, inPlace: bool, offered: seq<ToolDefinition>, all: seq<Block>, at: nat, end: nat,
                    cells: seq<(string, Cell)>)
    requires at <= end <= |all|
  {
    var segments := SegmentsOf(env, all, at, end, ANTHROPIC, inPlace);
    AllFromAssistant(segments) && SegmentCells(env, offered, segments) == cells
  }

  /** `answer` is what a parsed content array was committed as. */
  ghost predicate CommittedAs(env: RenderEnv, content: seq<Json>, answer: seq<Block>) {
    exists items, stop, ids :: ParseBlocks(content) == Ok(items) && ToBlocks(env.names.blank, items, stop, ids) == Ok(answer)
  }

  lemma AnswerComesBack(env: RenderEnv, inPlace: bool, offered: seq<ToolDefinition>, all: seq<Block>, at: nat, end: nat,
                        content: seq<Json>, answer: seq<Block>)
    requires EmptyIsBlank(env) && CommittedAs(env, content, answer) && StandsAt(all, at, answer) && end == at + |answer|
    ensures Returns(env, inPlace, offered, all, at, end, Replayed(env, content))
  {
    var items, stop, ids :| ParseBlocks(content) == Ok(items) && ToBlocks(env.names.blank, items, stop, ids) == Ok(answer);
    ConvertedBlocks(env.names.blank, items, stop, ids, answer);
    ContentComesBack(env, inPlace, offered, all, at, end, content, items, ids, answer);
  }

  predicate AllFromAssistant(segments: seq<Segment>) {
    forall k :: 0 <= k < |segments| ==> FromAssistant(segments[k])
  }

  lemma AssistantJoin(a: seq<Segment>, b: seq<Segment>)
    requires AllFromAssistant(a) && AllFromAssistant(b)
    ensures AllFromAssistant(a + b)
  {
  }

  lemma DroppedIsBlank(env: RenderEnv, block: Json, item: ModelItem)
    requires EmptyIsBlank(env) && ParseBlock(block) == Ok(item) && !Commits(item)
    ensures BlankText(env, block)
  {
    match TypeOf(block)
    case TextBlock => KeptOne(Text(StrOf(block, "text").value));
    case ToolUseBlock =>
    case _ => KeptOne(Sealed(ANTHROPIC, block));
  }

  /** The segments that are not part of the leading system run. */
  function Conversation(segments: seq<Segment>, leading: nat): seq<Segment> {
    if leading < |segments| then segments[leading..] else []
  }

  function Rendered(env: RenderEnv, start: Body, segments: seq<Segment>, leading: nat): Result<Body, ErrorKind> {
    RenderAll(env, start, Conversation(segments, leading))
  }

  /** The leading run never reaches past assistant segments. */
  lemma ConversationSplits(first: seq<Segment>, middle: seq<Segment>, last: seq<Segment>)
    requires AllFromAssistant(middle)
    ensures var leading := LeadingSystem(first + middle + last);
            Conversation(first + middle, leading) == Conversation(first, leading) + middle
    ensures var leading := LeadingSystem(first + middle + last);
            exists rest :: Conversation(first + middle + last, leading) == Conversation(first + middle, leading) + rest
  {
    var all := first + middle + last;
    var leading := LeadingSystem(all);
    if middle != [] {
      assert all[|first|] == middle[0];
      assert leading <= |first|;
    }
    if leading <= |first + middle| {
      assert all[leading..] == (first + middle)[leading..] + last;
    } else {
      assert Conversation(first + middle, leading) + Conversation(all, leading) == Conversation(all, leading);
    }
    assert first + middle == first || leading <= |first|;
  }

  lemma MiddleReplays(env: RenderEnv, start: Body, first: seq<Segment>, middle: seq<Segment>, last: seq<Segment>)
    requires AllFromAssistant(middle)
    ensures var leading := LeadingSystem(first + middle + last);
            var prior, upto := Rendered(env, start, first, leading), Rendered(env, start, first + middle, leading);
            var whole := Rendered(env, start, first + middle + last, leading);
            && (prior.Ok? ==> upto.Ok? && Flat(upto.value.messages) ==
                                          Flat(prior.value.messages) + SegmentCells(env, prior.value.offered, middle))
            && (whole.Ok? ==> prior.Ok? && Flat(upto.value.messages) <= Flat(whole.value.messages))
  {
    var leading := LeadingSystem(first + middle + last);
    ConversationSplits(first, middle, last);
    RenderJoins(env, start, Conversation(first, leading), middle);
    var prior, upto := Rendered(env, start, first, leading), Rendered(env, start, first + middle, leading);
    if prior.Ok? {
      AssistantRenders(env, prior.value, middle);
    }
    var rest :| Conversation(first + middle + last, leading) == Conversation(first + middle, leading) + rest;
    RenderJoins(env, start, Conversation(first + middle, leading), rest);
    if upto.Ok? {
      RenderGrows(env, upto.value, rest);
    }
  }

  /** The three stretches of a frame around an answer. */
  lemma FrameSplits(env: RenderEnv, inPlace: bool, all: seq<Block>, at: nat, end: nat)
    requires at <= end <= |all|
    ensures var first, middle := SegmentsOf(env, all, 0, at, ANTHROPIC, inPlace), SegmentsOf(env, all, at, end, ANTHROPIC, inPlace);
            && SegmentsOf(env, all, 0, end, ANTHROPIC, inPlace) == first + middle
            && SegmentsOf(env, all, 0, |all|, ANTHROPIC, inPlace) ==
               first + middle + SegmentsOf(env, all, end, |all|, ANTHROPIC, inPlace)
  {
    SegmentsJoin(env, all, 0, at, end, ANTHROPIC, inPlace);
    SegmentsJoin(env, all, 0, end, |all|, ANTHROPIC, inPlace);
  }

  /** The first `upto` blocks of a frame, rendered without the frame's leading system run. */
  function RenderedUpTo(env: RenderEnv, inPlace: bool, all: seq<Block>, upto: nat, start: Body): Result<Body, ErrorKind>
    requires upto <= |all|
  {
    Rendered(env, start, SegmentsOf(env, all, 0, upto, ANTHROPIC, inPlace),
             LeadingSystem(SegmentsOf(env, all, 0, |all|, ANTHROPIC, inPlace)))
  }

  /** From `prior` to `upto` exactly `cells` were added, and they are still there at the end. */
  predicate AddsAndKeeps(prior: Result<Body, ErrorKind>, upto: Result<Body, ErrorKind>, whole: Result<Body, ErrorKind>,
                         cells: seq<(string, Cell)>)
  {
    && (prior.Ok? ==> upto.Ok? && Flat(upto.value.messages) == Flat(prior.value.messages) + cells)
    && (whole.Ok? ==> prior.Ok? && Flat(upto.value.messages) <= Flat(whole.value.messages))
  }

  lemma StretchReplays(env: RenderEnv, inPlace: bool, all: seq<Block>, at: nat, end: nat, start: Body,
                       cells: seq<(string, Cell)>)
    requires at <= end <= |all|
    requires forall offered :: Returns(env, inPlace, offered, all, at, end, cells)
    ensures AddsAndKeeps(RenderedUpTo(env, inPlace, all, at, start), RenderedUpTo(env, inPlace, all, end, start),
                         RenderedUpTo(env, inPlace, all, |all|, start), cells)
  {
    var first, middle := SegmentsOf(env, all, 0, at, ANTHROPIC, inPlace), SegmentsOf(env, all, at, end, ANTHROPIC, inPlace);
    var last := SegmentsOf(env, all, end, |all|, ANTHROPIC, inPlace);
    assert Returns(env, inPlace, start.offered, all, at, end, cells);
    FrameSplits(env, inPlace, all, at, end);
    MiddleReplays(env, start, first, middle, last);
    var prior := RenderedUpTo(env, inPlace, all, at, start);
    if prior.Ok? {
      assert Returns(env, inPlace, prior.value.offered, all, at, end, cells);
    }
  }

  /** The same whatever tools are offered where the answer stands. */
  lemma AnswerReturns(env: RenderEnv, inPlace: bool, all: seq<Block>, at: nat, end: nat, content: seq<Json>,
                      answer: seq<Block>, cells: seq<(string, Cell)>)
    requires EmptyIsBlank(env) && CommittedAs(env, content, answer) && StandsAt(all, at, answer) && end == at + |answer|
    requires cells == Replayed(env, content)
    ensures forall offered :: Returns(env, inPlace, offered, all, at, end, cells)
  {
    forall offered: seq<ToolDefinition> ensures Returns(env, inPlace, offered, all, at, end, cells) {
      AnswerComesBack(env, inPlace, offered, all, at, end, content, answer);
    }
  }

  /**
   A content array, committed as blocks anywhere in a frame, comes back in order and value for
   value, with only its blank texts left out and a missing `input` filled in: right after what the
   blocks before it render to, and with nothing later moving it.
   */
  lemma ContentReplays(env: RenderEnv, inPlace: bool, all: seq<Block>, at: nat, end: nat, content: seq<Json>,
                       answer: seq<Block>, start: Body)
    requires EmptyIsBlank(env) && CommittedAs(env, content, answer) && StandsAt(all, at, answer) && end == at + |answer|
    ensures AddsAndKeeps(RenderedUpTo(env, inPlace, all, at, start), RenderedUpTo(env, inPlace, all, end, start),
                         RenderedUpTo(env, inPlace, all, |all|, start), Replayed(env, content))
  {
    AnswerReturns(env, inPlace, all, at, end, content, answer, Replayed(env, content));
    StretchReplays(env, inPlace, all, at, end, start, Replayed(env, content));
  }
}
