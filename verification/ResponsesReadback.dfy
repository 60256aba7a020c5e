/**
 What a Responses request says, read off its JSON: the instructions and then item for item, what
 the frame says. The keys and texts are the protocol's, written out.
 */
module ResponsesReadback {
  import opened Wrappers
  import opened Sequences
  import opened Json
  import opened Model
  import opened Blocks
  import opened ToolSets
  import opened ToolHistory
  import opened Segments
  import opened Sayings
  import opened ResponsesWire
  import ChatReadback
  import ChatWire
  import ResponsesParse

  // -- the items a frame calls for --------------------------------------------------------------------

  /** An input item, by what it must say. */
  datatype Line =
    | UserLine(parts: seq<Saying>)
    | SystemLine(x: Saying)
    | OwnLine(x: Saying)
    | MessageLine(at: nat, texts: seq<Saying>)
    | KeptLine(item: Json)
    | CallLine(at: nat)
    | ResultLine(at: nat)
    | ToolsLine(at: nat)

  predicate OwnText(x: Saying, at: nat) {
    x.Spoken? && x.role == Assistant && x.at == at
  }

  /** How many texts of the assistant's block stand at the front. */
  function TextBlock(says: seq<Saying>, at: nat): (n: nat)
    ensures n <= |says| && forall k :: 0 <= k < n ==> OwnText(says[k], at)
  {
    if says == [] || !OwnText(says[0], at) then 0 else 1 + TextBlock(says[1..], at)
  }

  /** The provider's fields of a block, as the object they were read from. */
  function OwnFields(b: Block): Fields {
    match b.meta.wire
    case Some(WireMeta(format, Obj(fields))) => if format == "openai_responses" then fields else map[]
    case _ => map[]
  }

  predicate IsSlot(part: Json) {
    Get(part, "type") == Some(Str("output_text"))
  }

  function Slots(content: seq<Json>): nat {
    if content == [] then 0 else (if IsSlot(content[0]) then 1 else 0) + Slots(content[1..])
  }

  /** The recorded message of a block has a slot for each of its `n` parts. */
  predicate Refillable(b: Block, n: nat) {
    && b.meta.wire.Some? && b.meta.wire.value.format == "openai_responses"
    && b.content.Message? && |b.content.parts| == n
    && match Get(Obj(OwnFields(b)), "content")
       case Some(Arr(items)) => Slots(items) == n
       case _ => false
  }

  function ToolsAdded(blocks: seq<Block>, at: nat): seq<Line> {
    if at < |blocks| && blocks[at].content.ToolsChanged? && blocks[at].content.change.added != [] then [ToolsLine(at)] else []
  }

  /** How much of what is said goes into the first item, and what that item must say. */
  function Front(blocks: seq<Block>, says: seq<Saying>): (r: (nat, seq<Line>))
    requires says != []
    ensures 0 < r.0 <= |says|
  {
    var x := says[0];
    match x
    case Changed(at) => (1, ToolsAdded(blocks, at))
    case Kept(_, item) => (1, [KeptLine(item)])
    case Called(at) => (1, [CallLine(at)])
    case Observed(at) => (1, [ResultLine(at)])
    case Displayed(at, role, _) => Placed(says, role)
    case Spoken(at, role, _) =>
      var n := TextBlock(says, at);
      if role == Assistant && n > 0 && at < |blocks| && Refillable(blocks[at], n) then (n, [MessageLine(at, says[..n])])
      else Placed(says, role)
  }

  function Placed(says: seq<Saying>, role: Role): (r: (nat, seq<Line>))
    requires says != [] && (role == User ==> ByUser(says[0]))
    ensures 0 < r.0 <= |says|
  {
    match role
    case User => (UserBlock(says), [UserLine(says[..UserBlock(says)])])
    case System => (1, [SystemLine(says[0])])
    case Assistant => (1, [OwnLine(says[0])])
  }

  function Lines(blocks: seq<Block>, says: seq<Saying>): seq<Line>
    decreases |says|
  {
    if says == [] then [] else Front(blocks, says).1 + Lines(blocks, says[Front(blocks, says).0..])
  }

  // -- how an item says it --------------------------------------------------------------------------------

  predicate IsInputText(v: Json, text: string) {
    v == Obj(map["type" := Str("input_text"), "text" := Str(text)])
  }

  predicate InputShows(env: RenderEnv, m: MediaRef, v: Json) {
    match env.show(m)
    case Some(item) => v == item
    case None => IsInputText(v, env.placeholder(m))
  }

  predicate PartSaid(env: RenderEnv, x: Saying, v: Json) {
    match x
    case Spoken(_, _, text) => IsInputText(v, text)
    case Displayed(_, _, m) => InputShows(env, m, v)
    case _ => false
  }

  predicate IsMessage(v: Json, role: string) {
    v.Obj? && v.fields.Keys == {"role", "content"} && v.fields["role"] == Str(role) && v.fields["content"].Arr?
  }

  /** What a system's or an assistant's saying comes to as text. */
  function AsWords(env: RenderEnv, x: Saying): string {
    match x
    case Spoken(_, _, text) => text
    case Displayed(_, _, m) => env.placeholder(m)
    case _ => ""
  }

  /** `now` is `was` with the texts in its slots, one by one. */
  predicate Refilled(was: seq<Json>, now: seq<Json>, texts: seq<Saying>) {
    if was == [] then now == [] && texts == []
    else if now == [] then false
    else if IsSlot(was[0]) then
      && texts != [] && texts[0].Spoken? && now[0] == Obj(was[0].fields["text" := Str(texts[0].text)])
      && Refilled(was[1..], now[1..], texts[1..])
    else now[0] == was[0] && Refilled(was[1..], now[1..], texts)
  }

  /** The recorded message with these texts. */
  ghost predicate MessageSaid(b: Block, texts: seq<Saying>, v: Json) {
    var own := Obj(OwnFields(b));
    && Get(v, "role") == Some(Str("assistant"))
    && (forall key :: key != "role" && key != "content" ==> Get(v, key) == Get(own, key))
    && match (Get(own, "content"), Get(v, "content"))
       case (Some(Arr(was)), Some(Arr(now))) => Refilled(was, now, texts)
       case _ => false
  }

  /** A call around the provider's fields; its arguments say the facts. */
  ghost predicate CallSaid(env: RenderEnv, b: Block, v: Json) {
    && b.content.Declaration? && v.Obj?
    && Get(v, "call_id") == Some(Str(CallName(env.names, b))) && Get(v, "name") == Some(Str(b.content.input.toolName))
    && StrOf(v, "arguments").Some?
    && (ReadsBack(env.codec, b.content.input.arguments) ==>
          env.codec.parse(StrOf(v, "arguments").value) == Some(b.content.input.arguments))
    && forall key :: key !in {"call_id", "name", "arguments"} ==>
         Get(v, key) == if key in OwnFields(b) then Some(OwnFields(b)[key])
                        else if key == "type" then Some(Str("function_call")) else None
  }

  predicate OutputSaid(env: RenderEnv, r: ToolResult, output: Json) {
    if r.media == [] then output == Str(Observation(env, r))
    else
      && output.Arr? && |output.items| == 1 + |r.media| && IsInputText(output.items[0], Observation(env, r))
      && forall k :: 0 <= k < |r.media| ==> InputShows(env, r.media[k], output.items[k + 1])
  }

  ghost predicate ResultSaid(env: RenderEnv, blocks: seq<Block>, at: nat, v: Json) {
    && v.Obj? && v.fields.Keys == {"type", "call_id", "output"} && v.fields["type"] == Str("function_call_output")
    && v.fields["call_id"].Str? && ResultOf(env, blocks, at, v.fields["call_id"].s)
    && OutputSaid(env, blocks[at].content.result, v.fields["output"])
  }

  predicate ToolSaid(d: ToolDefinition, v: Json) {
    v == Obj(map["type" := Str("function"), "name" := Str(d.name), "description" := Str(d.description),
                 "parameters" := d.parameters])
  }

  /** The list of added tools. */
  predicate ToolsSaid(added: seq<ToolDefinition>, v: Json) {
    && v.Obj? && v.fields.Keys == {"type", "role", "tools"} && v.fields["type"] == Str("additional_tools")
    && v.fields["role"] == Str("developer") && v.fields["tools"].Arr? && |v.fields["tools"].items| == |added|
    && forall k :: 0 <= k < |added| ==> ToolSaid(added[k], v.fields["tools"].items[k])
  }

  /** The item says the line. */
  ghost predicate Reads(env: RenderEnv, blocks: seq<Block>, line: Line, v: Json) {
    match line
    case UserLine(parts) =>
      IsMessage(v, "user") && |v.fields["content"].items| == |parts|
      && forall k :: 0 <= k < |parts| ==> PartSaid(env, parts[k], v.fields["content"].items[k])
    case SystemLine(x) =>
      IsMessage(v, "system") && |v.fields["content"].items| == 1
      && IsInputText(v.fields["content"].items[0], AsWords(env, x))
    case OwnLine(x) =>
      IsMessage(v, "assistant")
      && v.fields["content"].items == [Obj(map["type" := Str("output_text"), "text" := Str(AsWords(env, x))])]
    case MessageLine(at, texts) => at < |blocks| && MessageSaid(blocks[at], texts, v)
    case KeptLine(item) => v == item
    case CallLine(at) => at < |blocks| && CallSaid(env, blocks[at], v)
    case ResultLine(at) => ResultSaid(env, blocks, at, v)
    case ToolsLine(at) =>
      at < |blocks| && blocks[at].content.ToolsChanged? && ToolsSaid(blocks[at].content.change.added, v)
  }

  ghost predicate AllRead(env: RenderEnv, blocks: seq<Block>, lines: seq<Line>, items: seq<Json>) {
    |lines| == |items| && forall k :: 0 <= k < |lines| ==> Reads(env, blocks, lines[k], items[k])
  }

  /** What the system says first are the instructions; the items say the rest, one by one. */
  ghost predicate Conveys(env: RenderEnv, blocks: seq<Block>, inPlace: bool, input: Input) {
    var says := FrameSays(blocks, "openai_responses", inPlace);
    var n := SystemRun(says);
    && |input.instructions| == n && (forall k :: 0 <= k < n ==> input.instructions[k] == AsWords(env, says[k]))
    && AllRead(env, blocks, Lines(blocks, says[n..]), input.items)
  }

  // -- one item -----------------------------------------------------------------------------------------------

  lemma ReadJoin(env: RenderEnv, blocks: seq<Block>, a: seq<Line>, x: seq<Json>, b: seq<Line>, y: seq<Json>)
    requires AllRead(env, blocks, a, x) && AllRead(env, blocks, b, y)
    ensures AllRead(env, blocks, a + b, x + y)
  {
  }

  lemma {:induction false} TextRunIsBlock(env: RenderEnv, blocks: seq<Block>, segments: seq<Segment>, says: seq<Saying>,
                                          at: nat)
    requires AllBear(env, blocks, RESPONSES, segments, says)
    ensures TextRun(segments, at) == TextBlock(says, at)
    decreases |says|
  {
    if says != [] {
      assert Bears(env, blocks, RESPONSES, segments[0], says[0]);
      assert SameBlockText(segments[0], at) <==> OwnText(says[0], at);
      TextRunIsBlock(env, blocks, segments[1..], says[1..], at);
    }
  }

  lemma {:induction false} SlotsCounted(content: seq<Json>)
    ensures SlotCount(content) == Slots(content)
    decreases |content|
  {
    if content != [] {
      SlotsCounted(content[1..]);
    }
  }

  /** The texts are those the sayings carry. */
  predicate Texted(texts: seq<string>, says: seq<Saying>) {
    |texts| == |says| && forall k :: 0 <= k < |says| ==> says[k].Spoken? && texts[k] == says[k].text
  }

  lemma {:induction false} FilledSays(content: seq<Json>, texts: seq<string>, says: seq<Saying>)
    requires SlotCount(content) == |texts| && Texted(texts, says)
    ensures Refilled(content, Filled(content, texts), says)
    decreases |content|
  {
    if content != [] {
      if ResponsesParse.IsTextPart(content[0]) {
        FilledSays(content[1..], texts[1..], says[1..]);
      } else {
        FilledSays(content[1..], texts, says);
      }
    }
  }

  lemma {:induction false} MessageReads(b: Block, fields: Json, texts: seq<string>, says: seq<Saying>)
    requires Carries(b, RESPONSES, Some(fields)) && Texted(texts, says) && b.content.Message? && |b.content.parts| == |texts|
    ensures MessageFromWire(fields, texts).Some? <==> Refillable(b, |texts|)
    ensures MessageFromWire(fields, texts).Some? ==> MessageSaid(b, says, MessageFromWire(fields, texts).value)
  {
    assert ResidueObject(Some(fields)) == OwnFields(b);
    if "content" in OwnFields(b) && OwnFields(b)["content"].Arr? {
      var items := OwnFields(b)["content"].items;
      SlotsCounted(items);
      if SlotCount(items) == |texts| {
        FilledSays(items, texts, says);
      }
    }
  }

  lemma {:induction false} WireMessageReads(env: RenderEnv, blocks: seq<Block>, segments: seq<Segment>, says: seq<Saying>)
    requires AllBear(env, blocks, RESPONSES, segments, says) && says != []
    requires says[0].Spoken? && says[0].role == Assistant
    ensures segments[0].TextSegment? && segments[0].role.Assistant? && says[0].at < |blocks|
    ensures var at, n := says[0].at, TextBlock(says, says[0].at);
            && (ResponsesWire.WireMessage(segments).Some? <==> Refillable(blocks[at], n))
            && TextRun(segments, segments[0].block) == n
            && (ResponsesWire.WireMessage(segments).Some? ==>
                  MessageSaid(blocks[at], says[..n], ResponsesWire.WireMessage(segments).value))
  {
    var s, x := segments[0], says[0];
    assert Bears(env, blocks, RESPONSES, s, x);
    TextRunIsBlock(env, blocks, segments, says, x.at);
    var n := TextBlock(says, x.at);
    if s.wire.Some? && n == s.parts {
      var texts := Texts(segments[..n]);
      forall k | 0 <= k < n ensures texts[k] == says[..n][k].text {
        assert Bears(env, blocks, RESPONSES, segments[k], says[k]);
      }
      MessageReads(blocks[x.at], s.wire.value, texts, says[..n]);
    }
  }

  lemma PictureShows(env: RenderEnv, m: MediaRef, r: Resolved)
    requires Pictured(env, true, m, r)
    ensures InputShows(env, m, InputMedia(r))
  {
  }

  lemma {:induction false} UserReads(env: RenderEnv, blocks: seq<Block>, segments: seq<Segment>, says: seq<Saying>)
    requires AllBear(env, blocks, RESPONSES, segments, says) && says != [] && ByUser(says[0])
    ensures var n := ChatWire.UserRun(segments);
            n == UserBlock(says) && Reads(env, blocks, UserLine(says[..UserBlock(says)]),
                  RoleItem("user", seq(n, i requires 0 <= i < n => InputPart(segments[i]))))
  {
    ChatReadback.UserRunIsBlock(env, blocks, RESPONSES, segments, says);
    AllByUser(says);
    var n := UserBlock(says);
    forall k | 0 <= k < n ensures PartSaid(env, says[k], InputPart(segments[k])) {
      assert Bears(env, blocks, RESPONSES, segments[k], says[k]);
      if says[k].Displayed? {
        PictureShows(env, says[k].media, segments[k].media);
      }
    }
  }

  lemma {:induction false} CallReads(env: RenderEnv, b: Block, wire: Option<Json>)
    requires b.content.Declaration? && Carries(b, RESPONSES, wire)
    ensures CallSaid(env, b, CallItem(env.codec, CallName(env.names, b), b.content.input.toolName,
                                      b.content.input.arguments, wire))
  {
    assert ResidueObject(wire) == OwnFields(b);
  }

  lemma {:induction false} OutputReads(env: RenderEnv, r: ToolResult, media: seq<Resolved>)
    requires AllPictured(env, r.media, media)
    ensures OutputSaid(env, r, OutputJson(Observation(env, r), media))
  {
    forall k | 0 <= k < |media| ensures InputShows(env, r.media[k], InputMedia(media[k])) {
      PictureShows(env, r.media[k], media[k]);
    }
  }

  lemma {:induction false} ResultReads(env: RenderEnv, blocks: seq<Block>, s: Segment, at: nat)
    requires Bears(env, blocks, RESPONSES, s, Observed(at))
    ensures ResultSaid(env, blocks, at, ResultItem(s.wireId, s.content, s.notes, s.attachments))
  {
    ChatReadback.NoteListFirst(s.notes);
    assert ResultOf(env, blocks, at, s.wireId);
    OutputReads(env, blocks[at].content.result, s.attachments);
  }

  // -- the walk --------------------------------------------------------------------------------------------------

  /** The items a step added say this much of the frame. */
  ghost predicate Added(env: RenderEnv, blocks: seq<Block>, before: Input, after: Input, lines: seq<Line>) {
    && after.instructions == before.instructions && before.items <= after.items
    && AllRead(env, blocks, lines, after.items[|before.items|..])
  }

  lemma OneAdded(env: RenderEnv, blocks: seq<Block>, input: Input, line: Line, v: Json)
    requires Reads(env, blocks, line, v)
    ensures Added(env, blocks, input, WithItem(input, v), [line])
  {
  }

  lemma {:induction false} SpokenStep(env: RenderEnv, blocks: seq<Block>, input: Input, segments: seq<Segment>,
                                      says: seq<Saying>)
    requires AllBear(env, blocks, RESPONSES, segments, says) && says != [] && says[0].Spoken? && !ByUser(says[0])
    ensures Taken(segments) == Front(blocks, says).0
    ensures Added(env, blocks, input, Step(env, input, segments, false), Front(blocks, says).1)
  {
    var s, x := segments[0], says[0];
    assert Bears(env, blocks, RESPONSES, s, x);
    if x.role == Assistant {
      WireMessageReads(env, blocks, segments, says);
      var message := ResponsesWire.WireMessage(segments);
      if message.Some? {
        OneAdded(env, blocks, input, MessageLine(x.at, says[..TextBlock(says, x.at)]), message.value);
      } else {
        OneAdded(env, blocks, input, OwnLine(x), RoleItem("assistant", [OutputText(x.text)]));
      }
    } else {
      OneAdded(env, blocks, input, SystemLine(x), RoleItem("system", [InputText(x.text)]));
    }
  }

  lemma {:induction false} DisplayedStep(env: RenderEnv, blocks: seq<Block>, input: Input, segments: seq<Segment>,
                                         says: seq<Saying>)
    requires AllBear(env, blocks, RESPONSES, segments, says) && says != [] && says[0].Displayed? && !ByUser(says[0])
    ensures Taken(segments) == Front(blocks, says).0
    ensures Added(env, blocks, input, Step(env, input, segments, false), Front(blocks, says).1)
  {
    var s, x := segments[0], says[0];
    assert Bears(env, blocks, RESPONSES, s, x);
    var text := env.placeholder(x.media);
    if x.role == System {
      OneAdded(env, blocks, input, SystemLine(x), RoleItem("system", [InputText(text)]));
    } else {
      OneAdded(env, blocks, input, OwnLine(x), RoleItem("assistant", [OutputText(text)]));
    }
  }

  lemma {:induction false} ChangeStep(env: RenderEnv, blocks: seq<Block>, input: Input, segments: seq<Segment>,
                                      says: seq<Saying>)
    requires AllBear(env, blocks, RESPONSES, segments, says) && says != [] && says[0].Changed?
    ensures Taken(segments) == Front(blocks, says).0
    ensures Added(env, blocks, input, Step(env, input, segments, false), Front(blocks, says).1)
  {
    var s, x := segments[0], says[0];
    assert Bears(env, blocks, RESPONSES, s, x);
    var added := blocks[x.at].content.change.added;
    if added != [] {
      OneAdded(env, blocks, input, ToolsLine(x.at), AddedTools(added)[0]);
      assert AddedTools(added) == [AddedTools(added)[0]];
    } else {
      NoneLast(input.items);
    }
  }

  lemma {:induction false} StepReads(env: RenderEnv, blocks: seq<Block>, input: Input, segments: seq<Segment>,
                                     says: seq<Saying>)
    requires AllBear(env, blocks, RESPONSES, segments, says) && says != []
    ensures Taken(segments) == Front(blocks, says).0
    ensures Added(env, blocks, input, Step(env, input, segments, false), Front(blocks, says).1)
  {
    var s, x := segments[0], says[0];
    assert Bears(env, blocks, RESPONSES, s, x);
    match x
    case Kept(_, item) => OneAdded(env, blocks, input, KeptLine(item), item);
    case Called(at) =>
      CallReads(env, blocks[at], s.wire);
      OneAdded(env, blocks, input, CallLine(at), CallItem(env.codec, s.wireId, s.name, s.arguments, s.wire));
    case Observed(at) =>
      ResultReads(env, blocks, s, at);
      OneAdded(env, blocks, input, ResultLine(at), ResultItem(s.wireId, s.content, s.notes, s.attachments));
    case Changed(_) => ChangeStep(env, blocks, input, segments, says);
    case _ =>
      if ByUser(x) {
        UserReads(env, blocks, segments, says);
        var n := UserBlock(says);
        OneAdded(env, blocks, input, UserLine(says[..n]),
                 RoleItem("user", seq(n, i requires 0 <= i < n => InputPart(segments[i]))));
      } else if x.Spoken? {
        SpokenStep(env, blocks, input, segments, says);
      } else {
        DisplayedStep(env, blocks, input, segments, says);
      }
  }

  lemma {:induction false} AddedThen(env: RenderEnv, blocks: seq<Block>, a: Input, b: Input, c: Input, x: seq<Line>,
                                     y: seq<Line>)
    requires Added(env, blocks, a, b, x) && Added(env, blocks, b, c, y)
    ensures Added(env, blocks, a, c, x + y)
  {
    ReadJoin(env, blocks, x, b.items[|a.items|..], y, c.items[|b.items|..]);
    assert c.items[|a.items|..] == b.items[|a.items|..] + c.items[|b.items|..];
  }

  lemma {:induction false} WalkReads(env: RenderEnv, blocks: seq<Block>, input: Input, segments: seq<Segment>,
                                     says: seq<Saying>)
    requires AllBear(env, blocks, RESPONSES, segments, says)
    ensures Added(env, blocks, input, Walk(env, input, segments, 0), Lines(blocks, says))
    decreases |segments|
  {
    if segments != [] {
      StepReads(env, blocks, input, segments, says);
      WalkOn(env, input, segments, 0);
      var n, next := Taken(segments), Step(env, input, segments, false);
      WalkReads(env, blocks, next, segments[n..], says[n..]);
      AddedThen(env, blocks, input, next, Walk(env, next, segments[n..], 0), Front(blocks, says).1, Lines(blocks, says[n..]));
    }
  }

  // -- the instructions ---------------------------------------------------------------------------------------------

  /** What the first `n` sayings, all of them the system's, come to as texts. */
  function Instructed(env: RenderEnv, says: seq<Saying>): (r: seq<string>)
    ensures |r| == |says| && forall k :: 0 <= k < |r| ==> r[k] == AsWords(env, says[k])
  {
    seq(|says|, k requires 0 <= k < |says| => AsWords(env, says[k]))
  }

  lemma {:induction false} InstructionStep(env: RenderEnv, blocks: seq<Block>, input: Input, segments: seq<Segment>,
                                           says: seq<Saying>)
    requires AllBear(env, blocks, RESPONSES, segments, says) && says != [] && BySystem(says[0])
    ensures Taken(segments) == 1
    ensures Step(env, input, segments, true) == input.(instructions := input.instructions + [AsWords(env, says[0])])
  {
    assert Bears(env, blocks, RESPONSES, segments[0], says[0]);
  }

  /** The leading system run goes into the instructions, and the walk goes on behind it. */
  lemma {:induction false} LeadingWalk(env: RenderEnv, blocks: seq<Block>, input: Input, segments: seq<Segment>,
                                       says: seq<Saying>, n: nat)
    requires AllBear(env, blocks, RESPONSES, segments, says) && n <= |says|
    requires forall k :: 0 <= k < n ==> BySystem(says[k])
    ensures Walk(env, input, segments, n) ==
            Walk(env, input.(instructions := input.instructions + Instructed(env, says[..n])), segments[n..], 0)
    decreases n
  {
    if n == 0 {
      NoneLast(input.instructions);
    } else {
      var next := input.(instructions := input.instructions + [AsWords(env, says[0])]);
      InstructionStep(env, blocks, input, segments, says);
      WalkOn(env, input, segments, n);
      LeadingWalk(env, blocks, next, segments[1..], says[1..], n - 1);
      assert says[1..][..n - 1] == says[..n][1..];
      assert Instructed(env, says[..n]) == [AsWords(env, says[0])] + Instructed(env, says[1..][..n - 1]);
      Associate(input.instructions, [AsWords(env, says[0])], Instructed(env, says[1..][..n - 1]));
      assert segments[1..][n - 1..] == segments[n..];
    }
  }

  lemma {:induction false} LeadingIsRun(env: RenderEnv, blocks: seq<Block>, segments: seq<Segment>, says: seq<Saying>)
    requires AllBear(env, blocks, RESPONSES, segments, says)
    ensures LeadingSystem(segments) == SystemRun(says)
    ensures forall k :: 0 <= k < SystemRun(says) ==> BySystem(says[k])
    decreases |says|
  {
    if says != [] {
      assert Bears(env, blocks, RESPONSES, segments[0], says[0]);
      LeadingIsRun(env, blocks, segments[1..], says[1..]);
      assert forall k :: 1 <= k < |says| ==> says[k] == says[1..][k - 1];
    }
  }

  /** A frame's Responses input says what the frame says. */
  lemma {:induction false} InputConveys(env: RenderEnv, blocks: seq<Block>, inPlace: bool)
    ensures var segments := SegmentsOf(env, blocks, 0, |blocks|, RESPONSES, inPlace);
            Conveys(env, blocks, inPlace, Walk(env, Start, segments, LeadingSystem(segments)))
  {
    var segments, says := SegmentsOf(env, blocks, 0, |blocks|, RESPONSES, inPlace), FrameSays(blocks, RESPONSES, inPlace);
    SegmentsBear(env, blocks, |blocks|, RESPONSES, inPlace);
    LeadingIsRun(env, blocks, segments, says);
    var n := SystemRun(says);
    LeadingWalk(env, blocks, Start, segments, says, n);
    var led := Start.(instructions := Start.instructions + Instructed(env, says[..n]));
    WalkReads(env, blocks, led, segments[n..], says[n..]);
  }
}
