/** The Responses renderer: segments into input items. */
module ResponsesWire {
  import opened Wrappers
  import opened Json
  import opened Blocks
  import opened Segments
  import opened ResponsesParse
  import ChatWire

  function InputText(text: string): Json {
    Obj(map["type" := Str("input_text"), "text" := Str(text)])
  }

  function InputMedia(m: Resolved): Json {
    match m
    case Shown(item) => item
    case Placeholder(text) => InputText(text)
  }

  function RoleItem(role: string, content: seq<Json>): Json {
    Obj(map["role" := Str(role), "content" := Arr(content)])
  }

  function OutputText(text: string): Json {
    Obj(map["type" := Str("output_text"), "text" := Str(text)])
  }

  function InputPart(s: Segment): Json {
    if s.TextSegment? then InputText(s.text) else if s.MediaSegment? then InputMedia(s.media) else Null
  }

  // -- messages rebuilt on their item ----------------------------------------------------------

  predicate SameBlockText(s: Segment, block: nat) {
    s.TextSegment? && s.role.Assistant? && s.block == block
  }

  /** How many assistant texts of the same block stand at the front. */
  function TextRun(segments: seq<Segment>, block: nat): (n: nat)
    ensures n <= |segments| && forall i :: 0 <= i < n ==> SameBlockText(segments[i], block)
    ensures n < |segments| ==> !SameBlockText(segments[n], block)
  {
    if segments == [] || !SameBlockText(segments[0], block) then 0 else 1 + TextRun(segments[1..], block)
  }

  function Texts(segments: seq<Segment>): (r: seq<string>)
    requires forall i :: 0 <= i < |segments| ==> segments[i].TextSegment?
    ensures |r| == |segments| && forall i :: 0 <= i < |r| ==> r[i] == segments[i].text
  {
    seq(|segments|, i requires 0 <= i < |segments| => segments[i].text)
  }

  function SlotCount(content: seq<Json>): nat {
    if content == [] then 0 else (if IsTextPart(content[0]) then 1 else 0) + SlotCount(content[1..])
  }

  /** Each text goes into the slot at its position. */
  function Filled(content: seq<Json>, texts: seq<string>): seq<Json>
    requires SlotCount(content) == |texts|
  {
    if content == [] then []
    else if IsTextPart(content[0]) then
      [Obj(content[0].fields["text" := Str(texts[0])])] + Filled(content[1..], texts[1..])
    else [content[0]] + Filled(content[1..], texts)
  }

  /** The recorded item around its texts; nothing unless there is a slot for each text. */
  function MessageFromWire(fields: Json, texts: seq<string>): Option<Json> {
    var item := ResidueObject(Some(fields));
    if "content" !in item || !item["content"].Arr? || SlotCount(item["content"].items) != |texts| then None
    else Some(Obj(item["content" := Arr(Filled(item["content"].items, texts))]["role" := Str("assistant")]))
  }

  function CallItem(codec: Codec, wireId: string, name: string, arguments: Json, wire: Option<Json>): Json {
    var item := OrInsert(ResidueObject(wire), "type", Str("function_call"))["call_id" := Str(wireId)]["name" := Str(name)];
    Obj(item["arguments" := Str(WireArguments(codec, if "arguments" in item then Some(item["arguments"]) else None, arguments))])
  }

  function OutputJson(text: string, media: seq<Resolved>): Json {
    if media == [] then Str(text)
    else Arr([InputText(text)] + seq(|media|, i requires 0 <= i < |media| => InputMedia(media[i])))
  }

  function ResultItem(wireId: string, content: string, notes: seq<string>, media: seq<Resolved>): Json {
    Obj(map["type" := Str("function_call_output"), "call_id" := Str(wireId),
            "output" := OutputJson(ChatWire.ResultText(content, notes), media)])
  }

  function ToolJson(d: ToolDefinition): Json {
    Obj(map["type" := Str("function"), "name" := Str(d.name), "description" := Str(d.description), "parameters" := d.parameters])
  }

  function AddedTools(added: seq<ToolDefinition>): seq<Json> {
    if added == [] then []
    else [Obj(map["type" := Str("additional_tools"), "role" := Str("developer"),
                  "tools" := Arr(seq(|added|, i requires 0 <= i < |added| => ToolJson(added[i])))])]
  }

  // -- the walk ----------------------------------------------------------------------------------

  datatype Input = Input(items: seq<Json>, instructions: seq<string>)

  const Start := Input([], [])

  function WithItem(input: Input, item: Json): Input {
    input.(items := input.items + [item])
  }

  /** The message an assistant text starts, when its block's item can be rebuilt. */
  function WireMessage(segments: seq<Segment>): Option<Json>
    requires segments != [] && segments[0].TextSegment? && segments[0].role.Assistant?
  {
    var s := segments[0];
    var run := TextRun(segments, s.block);
    if s.wire.None? || run != s.parts then None else MessageFromWire(s.wire.value, Texts(segments[..run]))
  }

  /** How many segments the front takes with it. */
  function Taken(segments: seq<Segment>): (n: nat)
    requires segments != []
    ensures 0 < n <= |segments|
  {
    var s := segments[0];
    if ChatWire.IsUserPart(s) then ChatWire.UserRun(segments)
    else if s.TextSegment? && s.role.Assistant? && WireMessage(segments).Some? then
      TextRun(segments, s.block)
    else 1
  }

  /** What the front does; `leading` says it belongs to the leading system run. */
  function Step(env: RenderEnv, input: Input, segments: seq<Segment>, leading: bool): Input
    requires segments != []
  {
    var s := segments[0];
    if ChatWire.IsUserPart(s) then
      var n := ChatWire.UserRun(segments);
      WithItem(input, RoleItem("user", seq(n, i requires 0 <= i < n => InputPart(segments[i]))))
    else
      match s
      case TextSegment(role, text, _, _, _) =>
        if role.Assistant? then
          var message := WireMessage(segments);
          WithItem(input, if message.Some? then message.value else RoleItem("assistant", [OutputText(text)]))
        else if leading then input.(instructions := input.instructions + [text])
        else WithItem(input, RoleItem("system", [InputText(text)]))
      case SealedSegment(item) => WithItem(input, item)
      case MediaSegment(role, media, _) =>
        var text := if media.Placeholder? then media.text else "";
        if role.System? && leading then input.(instructions := input.instructions + [text])
        else if role.System? then WithItem(input, RoleItem("system", [InputText(text)]))
        else WithItem(input, RoleItem("assistant", [OutputText(text)]))
      case CallSegment(wireId, name, arguments, wire) => WithItem(input, CallItem(env.codec, wireId, name, arguments, wire))
      case ResultSegment(wireId, _, content, notes, media) => WithItem(input, ResultItem(wireId, content, notes, media))
      case ChangeSegment(change) => input.(items := input.items + AddedTools(change.added))
  }

  /** `leading` counts the segments of the system run that are still ahead. */
  function Walk(env: RenderEnv, input: Input, segments: seq<Segment>, leading: nat): Input
    decreases |segments|
  {
    if segments == [] then input
    else
      Walk(env, Step(env, input, segments, leading > 0), segments[Taken(segments)..], if leading > 0 then leading - 1 else 0)
  }

  function Ahead(leading: nat, next: nat): nat {
    if next < leading then leading - next else 0
  }

  /** The rest of the loop from position `next`. */
  function WalkFrom(env: RenderEnv, input: Input, segments: seq<Segment>, leading: nat, next: nat): Input
    requires next <= |segments|
  {
    Walk(env, input, segments[next..], Ahead(leading, next))
  }

  lemma Further(segments: seq<Segment>, next: nat, n: nat)
    requires next < |segments| && n <= |segments| - next
    ensures segments[next..][n..] == segments[next + n..] && segments[next..][0] == segments[next]
  {
  }

  /** One turn of the walk. */
  lemma WalkOn(env: RenderEnv, input: Input, rest: seq<Segment>, leading: nat)
    requires rest != []
    ensures Walk(env, input, rest, leading) ==
            Walk(env, Step(env, input, rest, leading > 0), rest[Taken(rest)..], if leading > 0 then leading - 1 else 0)
  {
  }

  /** The leading system run is walked one segment at a time. */
  lemma AheadOn(segments: seq<Segment>, leading: nat, next: nat)
    requires next < |segments| && leading == LeadingSystem(segments)
    ensures var n := Taken(segments[next..]);
            Ahead(leading, next + n) == if Ahead(leading, next) > 0 then Ahead(leading, next) - 1 else 0
  {
    if next < leading {
      assert IsSystem(segments[next]) && segments[next..][0] == segments[next];
    }
  }

  /** One turn of the loop at position `next`. */
  lemma {:induction false} WalkAt(env: RenderEnv, input: Input, segments: seq<Segment>, leading: nat, next: nat)
    requires next < |segments| && leading == LeadingSystem(segments)
    ensures var rest := segments[next..];
            WalkFrom(env, input, segments, leading, next) ==
            WalkFrom(env, Step(env, input, rest, next < leading), segments, leading, next + Taken(rest))
  {
    var rest := segments[next..];
    Further(segments, next, Taken(rest));
    WalkOn(env, input, rest, Ahead(leading, next));
    AheadOn(segments, leading, next);
  }

  lemma WalkEnds(env: RenderEnv, input: Input, segments: seq<Segment>, leading: nat)
    ensures WalkFrom(env, input, segments, leading, |segments|) == input
    ensures WalkFrom(env, input, segments, leading, 0) == Walk(env, input, segments, leading)
  {
    assert segments[|segments|..] == [] && segments[0..] == segments;
  }

  /** The loop as it is written. */
  method RenderInput(env: RenderEnv, segments: seq<Segment>) returns (input: Input)
    ensures input == Walk(env, Start, segments, LeadingSystem(segments))
  {
    var leading, next: nat := LeadingSystem(segments), 0;
    input := Start;
    ghost var whole := Walk(env, Start, segments, leading);
    WalkEnds(env, input, segments, leading);
    while next < |segments|
      invariant next <= |segments|
      invariant WalkFrom(env, input, segments, leading, next) == whole
    {
      WalkAt(env, input, segments, leading, next);
      var rest := segments[next..];
      input := Step(env, input, rest, next < leading);
      next := next + Taken(rest);
    }
    WalkEnds(env, input, segments, leading);
  }

  // -- walking piece by piece ---------------------------------------------------------------------

  /** No message spans the seam: neither a user's nor an assistant's. */
  predicate SeamFree(first: seq<Segment>, rest: seq<Segment>) {
    && ChatWire.SeamFree(first, rest)
    && (rest != [] && rest[0].TextSegment? && rest[0].role.Assistant? ==>
          forall i :: 0 <= i < |first| ==> !SameBlockText(first[i], rest[0].block))
  }

  lemma {:induction false} TextRunLocal(first: seq<Segment>, rest: seq<Segment>, block: nat)
    requires rest != [] ==> !SameBlockText(rest[0], block)
    ensures TextRun(first + rest, block) == TextRun(first, block)
    decreases |first|
  {
    var all := first + rest;
    if first == [] {
      assert all == rest;
    } else {
      assert all[0] == first[0] && all[1..] == first[1..] + rest;
      TextRunLocal(first[1..], rest, block);
    }
  }

  lemma {:induction false} FrontLocal(env: RenderEnv, input: Input, first: seq<Segment>, rest: seq<Segment>, leading: bool)
    requires first != [] && SeamFree(first, rest)
    ensures Taken(first + rest) == Taken(first)
    ensures Step(env, input, first + rest, leading) == Step(env, input, first, leading)
  {
    var all, s := first + rest, first[0];
    if ChatWire.IsUserPart(s) {
      ChatWire.UserRunLocal(first, rest);
      var n := ChatWire.UserRun(first);
      assert seq(n, i requires 0 <= i < n => InputPart(all[i])) == seq(n, i requires 0 <= i < n => InputPart(first[i]));
    } else if s.TextSegment? && s.role.Assistant? {
      assert SameBlockText(first[0], s.block);
      TextRunLocal(first, rest, s.block);
      assert all[..TextRun(first, s.block)] == first[..TextRun(first, s.block)];
    }
  }

  lemma SeamFreeLater(first: seq<Segment>, rest: seq<Segment>, n: nat)
    requires SeamFree(first, rest) && n <= |first|
    ensures SeamFree(first[n..], rest)
  {
    if n < |first| {
      assert first[n..][|first[n..]| - 1] == first[|first| - 1];
    }
  }

  function LeadingAfter(leading: nat, first: seq<Segment>): nat
    decreases |first|
  {
    if first == [] then leading else LeadingAfter(if leading > 0 then leading - 1 else 0, first[Taken(first)..])
  }

  lemma {:induction false} WalkJoins(env: RenderEnv, input: Input, first: seq<Segment>, rest: seq<Segment>, leading: nat)
    requires SeamFree(first, rest)
    ensures Walk(env, input, first + rest, leading) ==
            Walk(env, Walk(env, input, first, leading), rest, LeadingAfter(leading, first))
    decreases |first|
  {
    if first == [] {
      assert first + rest == rest;
    } else {
      var n := Taken(first);
      FrontLocal(env, input, first, rest, leading > 0);
      SeamFreeLater(first, rest, n);
      assert (first + rest)[n..] == first[n..] + rest;
      WalkJoins(env, Step(env, input, first, leading > 0), first[n..], rest, if leading > 0 then leading - 1 else 0);
    }
  }

  lemma StepGrows(env: RenderEnv, input: Input, segments: seq<Segment>, leading: bool)
    requires segments != []
    ensures input.items <= Step(env, input, segments, leading).items
  {
  }

  lemma {:induction false} ItemsOnlyGrow(env: RenderEnv, input: Input, segments: seq<Segment>, leading: nat)
    ensures input.items <= Walk(env, input, segments, leading).items
    decreases |segments|
  {
    if segments != [] {
      StepGrows(env, input, segments, leading > 0);
      ItemsOnlyGrow(env, Step(env, input, segments, leading > 0), segments[Taken(segments)..], if leading > 0 then leading - 1 else 0);
    }
  }
}
