/**
 A Chat assistant message, parsed, committed and rendered: what is sent back for it, and exactly
 when that is the message it was.
 */
module ChatReplay {
  import opened Wrappers
  import opened Json
  import opened Model
  import opened Blocks
  import opened Conversion
  import opened ChatParse
  import opened ChatWire
  import opened Segments

  const REPLAY := Options(true)

  // -- one item -------------------------------------------------------------------------------

  /** The items a Chat message is made of. */
  predicate ChatItem(item: ModelItem) {
    match item.content
    case ToolCall(call) => call.providerCallId.Some? && item.wire.Some? && item.wire.value.format == CHAT
    case Parts(parts) =>
      item.wire.None? && |parts| == 1
      && ((parts[0].Text? && parts[0].text != "") || (parts[0].Sealed? && parts[0].format == CHAT))
  }

  /** White space alone is left out of the request. */
  predicate Shows(env: RenderEnv, item: ModelItem)
    requires ChatItem(item)
  {
    !(item.content.Parts? && item.content.parts[0].Text? && env.names.blank(item.content.parts[0].text))
  }

  /** What an item adds to the open message. */
  function Effect(env: RenderEnv, run: AssistantRun, item: ModelItem): AssistantRun
    requires ChatItem(item)
  {
    if !Shows(env, item) then run
    else
      match item.content
      case ToolCall(call) =>
        run.(calls := run.calls + [CallJson(env.codec, call.providerCallId.value, call.toolName, call.arguments,
                                            Some(item.wire.value.fields))])
      case Parts(parts) =>
        if parts[0].Text? then run.(text := run.text + parts[0].text)
        else if run.sealed.None? then run.(sealed := Some(parts[0].item)) else run
  }

  /** The segment of a block made from a Chat item. */
  function ItemSegment(item: ModelItem, i: nat): Segment
    requires ChatItem(item)
  {
    match item.content
    case ToolCall(call) => CallSegment(call.providerCallId.value, call.toolName, call.arguments, Some(item.wire.value.fields))
    case Parts(parts) =>
      if parts[0].Text? then TextSegment(Assistant, parts[0].text, i, 1, None) else SealedSegment(parts[0].item)
  }

  lemma ItemCommits(item: ModelItem)
    requires ChatItem(item)
    ensures Commits(item)
    ensures item.content.Parts? ==> KeptParts(item.content.parts) == item.content.parts
  {
    if item.content.Parts? {
      KeptOne(item.content.parts[0]);
      assert item.content.parts == [item.content.parts[0]];
    }
  }

  lemma ItemIsOneSegment(env: RenderEnv, all: seq<Block>, i: nat, item: ModelItem, id: BlockId)
    requires ChatItem(item) && i < |all| && all[i] == BlockOf(item, id)
    ensures BlockSegments(env, all, i, CHAT, false) == [ItemSegment(item, i)]
  {
    ItemCommits(item);
    if item.content.Parts? {
      OnePart(env, item.content.parts[0], i, None, CHAT);
      assert item.content.parts == [item.content.parts[0]];
    }
  }

  /** Walking an item's segment is its effect, after what waited before it. */
  lemma ItemWalks(env: RenderEnv, c: Chat, item: ModelItem, i: nat)
    requires ChatItem(item)
    ensures Walk(env, REPLAY, c, [ItemSegment(item, i)]) ==
            if Shows(env, item) then Chat(c.messages + c.hoisted, Some(Effect(env, RunOf(c), item)), []) else c
  {
    WalkOne(env, REPLAY, c, ItemSegment(item, i));
  }

  // -- all items of a message --------------------------------------------------------------------

  predicate ChatItems(items: seq<ModelItem>) {
    forall k :: 0 <= k < |items| ==> ChatItem(items[k])
  }

  predicate AnyShows(env: RenderEnv, items: seq<ModelItem>)
    requires ChatItems(items)
  {
    exists k :: 0 <= k < |items| && Shows(env, items[k])
  }

  function Effects(env: RenderEnv, run: AssistantRun, items: seq<ModelItem>): AssistantRun
    requires ChatItems(items)
    decreases |items|
  {
    if items == [] then run else Effects(env, Effect(env, run, items[0]), items[1..])
  }

  lemma {:induction false} EffectsJoin(env: RenderEnv, run: AssistantRun, a: seq<ModelItem>, b: seq<ModelItem>)
    requires ChatItems(a) && ChatItems(b)
    ensures ChatItems(a + b) && Effects(env, run, a + b) == Effects(env, Effects(env, run, a), b)
    decreases |a|
  {
    if a == [] {
      assert a + b == b;
    } else {
      assert (a + b)[1..] == a[1..] + b;
      EffectsJoin(env, Effect(env, run, a[0]), a[1..], b);
    }
  }

  lemma {:induction false} HiddenItems(env: RenderEnv, run: AssistantRun, items: seq<ModelItem>)
    requires ChatItems(items) && !AnyShows(env, items)
    ensures Effects(env, run, items) == run
    decreases |items|
  {
    if items != [] {
      assert !Shows(env, items[0]);
      assert forall k :: 0 <= k < |items[1..]| ==> items[1..][k] == items[k + 1];
      HiddenItems(env, run, items[1..]);
    }
  }

  /** The segments are those of the items' blocks, which begin at `at`. */
  predicate AreSegmentsOf(segments: seq<Segment>, items: seq<ModelItem>, at: nat) {
    ChatItems(items) && |segments| == |items| && forall k :: 0 <= k < |items| ==> segments[k] == ItemSegment(items[k], at + k)
  }

  lemma AreSegmentsNext(segments: seq<Segment>, items: seq<ModelItem>, at: nat)
    requires AreSegmentsOf(segments, items, at) && items != []
    ensures segments[0] == ItemSegment(items[0], at) && AreSegmentsOf(segments[1..], items[1..], at + 1)
  {
    forall k | 0 <= k < |items[1..]| ensures segments[1..][k] == ItemSegment(items[1..][k], at + 1 + k) {
      assert segments[k + 1] == ItemSegment(items[k + 1], at + (k + 1));
    }
    assert segments[0] == ItemSegment(items[0], at + 0);
  }

  /** Each block of an answer is one segment, wherever the answer stands. */
  lemma {:induction false} SegmentsOfAnswer(env: RenderEnv, all: seq<Block>, at: nat, end: nat, items: seq<ModelItem>,
                                            ids: seq<BlockId>, answer: seq<Block>)
    requires ChatItems(items) && |ids| == BlockCount(items) && answer == BlocksFor(items, ids)
    requires StandsAt(all, at, answer) && end == at + |answer|
    ensures AreSegmentsOf(SegmentsOf(env, all, at, end, CHAT, false), items, at)
    decreases |items|
  {
    if items != [] {
      ItemCommits(items[0]);
      BlocksForRest(items, ids);
      StandsFirst(all, at, answer);
      FirstBlock(env, all, at, end, CHAT, false);
      ItemIsOneSegment(env, all, at, items[0], ids[0]);
      SegmentsOfAnswer(env, all, at + 1, end, items[1..], ids[1..], answer[1..]);
      SegmentsPut(ItemSegment(items[0], at), SegmentsOf(env, all, at + 1, end, CHAT, false), items, at);
    }
  }

  lemma SegmentsPut(first: Segment, rest: seq<Segment>, items: seq<ModelItem>, at: nat)
    requires ChatItems(items) && items != [] && first == ItemSegment(items[0], at) && AreSegmentsOf(rest, items[1..], at + 1)
    ensures AreSegmentsOf([first] + rest, items, at)
  {
    forall k | 0 <= k < |items| ensures ([first] + rest)[k] == ItemSegment(items[k], at + k) {
      if k > 0 {
        assert rest[k - 1] == ItemSegment(items[1..][k - 1], at + 1 + (k - 1));
      }
    }
  }

  /** The walk over a message's segments: its items' effects on the open message, if any of them shows. */
  lemma {:induction false} ItemsWalk(env: RenderEnv, c: Chat, segments: seq<Segment>, items: seq<ModelItem>, at: nat)
    requires AreSegmentsOf(segments, items, at)
    ensures Walk(env, REPLAY, c, segments) ==
            if AnyShows(env, items) then Chat(c.messages + c.hoisted, Some(Effects(env, RunOf(c), items)), []) else c
    decreases |items|
  {
    if items != [] {
      var first, rest := [segments[0]], segments[1..];
      assert segments == first + rest;
      AreSegmentsNext(segments, items, at);
      WalkJoins(env, REPLAY, c, first, rest);
      ItemWalks(env, c, items[0], at);
      var next := Walk(env, REPLAY, c, first);
      ItemsWalk(env, next, rest, items[1..], at + 1);
      ShowsFirst(env, items);
      assert next.messages + [] == next.messages;
      if !AnyShows(env, items[1..]) {
        HiddenItems(env, RunOf(next), items[1..]);
      }
    }
  }

  lemma ShowsFirst(env: RenderEnv, items: seq<ModelItem>)
    requires ChatItems(items) && items != []
    ensures AnyShows(env, items) <==> Shows(env, items[0]) || AnyShows(env, items[1..])
  {
    var rest := items[1..];
    if AnyShows(env, rest) {
      var k :| 0 <= k < |rest| && Shows(env, rest[k]);
      assert Shows(env, items[k + 1]);
    }
    if AnyShows(env, items) && !Shows(env, items[0]) {
      var k :| 0 <= k < |items| && Shows(env, items[k]);
      assert Shows(env, rest[k - 1]);
    }
  }

  // -- calls ----------------------------------------------------------------------------------------

  /** A call put together from its own facts and residue. */
  function Rebuilt(codec: Codec, call: Json): Json
    requires ParseCall(codec, call, false).Ok?
  {
    CallJson(codec, StrOf(call, "id").value, StrOf(Function(call), "name").value,
             codec.parse(StrOf(Function(call), "arguments").value).value, Some(CallResidue(call)))
  }

  /** A parsed call comes back exactly when it has a type of its own. */
  lemma {:induction false} CallComesBack(codec: Codec, call: Json)
    requires ParseCall(codec, call, false).Ok?
    ensures Rebuilt(codec, call) == call <==> Get(call, "type").Some?
    ensures Get(call, "type").None? ==> Rebuilt(codec, call) == Obj(call.fields["type" := Str("function")])
  {
    var f := Function(call);
    var bare := f.fields - {"name"};
    var residue := (call.fields - {"id"})["function" := Obj(bare)];
    assert CallResidue(call) == Obj(residue);
    assert "arguments" in bare && bare["arguments"] == f.fields["arguments"];
    assert bare["name" := f.fields["name"]]["arguments" := f.fields["arguments"]] == f.fields;
    var typed := if "type" in call.fields then call.fields else call.fields["type" := Str("function")];
    assert OrInsert(residue, "type", Str("function"))["id" := call.fields["id"]]["function" := call.fields["function"]] == typed;
  }

  /** The calls sent for the calls of a message. */
  function SentCalls(codec: Codec, calls: seq<Json>): seq<Json> {
    if calls == [] then []
    else (if ParseCall(codec, calls[0], false).Ok? then [Rebuilt(codec, calls[0])] else []) + SentCalls(codec, calls[1..])
  }

  /** The call is complete and has a type of its own. */
  predicate CallReturns(codec: Codec, call: Json) {
    ParseCall(codec, call, false).Ok? && Get(call, "type").Some?
  }

  predicate CallsReturn(codec: Codec, calls: seq<Json>) {
    forall k :: 0 <= k < |calls| ==> CallReturns(codec, calls[k])
  }

  lemma CallItem(env: RenderEnv, call: Json, cutOff: bool)
    requires ParseCall(env.codec, call, cutOff).Ok?
    ensures var items, whole := ParseCall(env.codec, call, cutOff).value, ParseCall(env.codec, call, false);
            && ChatItems(items) && (items == [] <==> whole.Err?)
            && (whole.Ok? ==> |items| == 1 && forall run :: Effect(env, run, items[0]) ==
                                                            run.(calls := run.calls + [Rebuilt(env.codec, call)]))
  {
  }

  lemma CallsOnward(run: AssistantRun, next: AssistantRun, first: seq<Json>, rest: seq<Json>)
    requires next == run.(calls := run.calls + first)
    ensures next.(calls := next.calls + rest) == run.(calls := run.calls + (first + rest))
  {
    assert run.calls + first + rest == run.calls + (first + rest);
  }

  lemma OneEffect(env: RenderEnv, run: AssistantRun, items: seq<ModelItem>)
    requires |items| <= 1 && ChatItems(items)
    ensures Effects(env, run, items) == if items == [] then run else Effect(env, run, items[0])
  {
    if items != [] {
      assert items[1..] == [];
    }
  }

  lemma {:induction false} CallsEffect(env: RenderEnv, calls: seq<Json>, limited: bool, run: AssistantRun)
    requires ParseCalls(env.codec, calls, limited).Ok?
    ensures var items := ParseCalls(env.codec, calls, limited).value;
            ChatItems(items) && Effects(env, run, items) == run.(calls := run.calls + SentCalls(env.codec, calls))
    decreases |calls|
  {
    if calls == [] {
      assert run.calls + [] == run.calls;
    } else {
      var cutOff := limited && |calls| == 1;
      var first, rest := ParseCall(env.codec, calls[0], cutOff).value, ParseCalls(env.codec, calls[1..], limited).value;
      CallItem(env, calls[0], cutOff);
      OneEffect(env, run, first);
      var next := Effects(env, run, first);
      CallsEffect(env, calls[1..], limited, next);
      EffectsJoin(env, run, first, rest);
      var sent := if ParseCall(env.codec, calls[0], false).Ok? then [Rebuilt(env.codec, calls[0])] else [];
      assert run.calls + [] == run.calls;
      CallsOnward(run, next, sent, SentCalls(env.codec, calls[1..]));
    }
  }

  lemma CallsReturnFirst(codec: Codec, calls: seq<Json>)
    requires calls != []
    ensures CallsReturn(codec, calls) <==> CallReturns(codec, calls[0]) && CallsReturn(codec, calls[1..])
  {
    assert calls == [calls[0]] + calls[1..];
  }

  lemma SameFirst(a: Json, rest: seq<Json>, calls: seq<Json>)
    requires calls != []
    ensures [a] + rest == calls <==> a == calls[0] && rest == calls[1..]
  {
    var all := [a] + rest;
    assert all[0] == a && all[1..] == rest;
    assert calls == [calls[0]] + calls[1..];
  }

  /** The calls come back exactly when each of them is typed and complete. */
  lemma {:induction false} SentCallsExactly(codec: Codec, calls: seq<Json>)
    ensures |SentCalls(codec, calls)| <= |calls|
    ensures SentCalls(codec, calls) == calls <==> CallsReturn(codec, calls)
    decreases |calls|
  {
    if calls != [] {
      var first, rest := calls[0], calls[1..];
      SentCallsExactly(codec, rest);
      CallsReturnFirst(codec, calls);
      if ParseCall(codec, first, false).Ok? {
        CallComesBack(codec, first);
        SameFirst(Rebuilt(codec, first), SentCalls(codec, rest), calls);
      } else {
        assert [] + SentCalls(codec, rest) == SentCalls(codec, rest);
      }
    }
  }

  // -- a message --------------------------------------------------------------------------------------

  function SealedPart(message: Json, text: string): Option<Json> {
    var residue := MessageResidue(message, text);
    if residue == map[] then None else Some(Obj(residue))
  }

  function ShownText(env: RenderEnv, text: string): string {
    if env.names.blank(text) then "" else text
  }

  lemma HeadEffect(env: RenderEnv, message: Json, text: string)
    ensures var head := MessageItems(message, text);
            && ChatItems(head)
            && Effects(env, NoRun, head) == AssistantRun(ShownText(env, text), SealedPart(message, text), [])
  {
    var residue := MessageResidue(message, text);
    var first := if residue == map[] then [] else [SealedItem(CHAT, Obj(residue))];
    var second := if text == "" then [] else [ModelItem(Parts([Text(text)]), None)];
    OneEffect(env, NoRun, first);
    OneEffect(env, Effects(env, NoRun, first), second);
    EffectsJoin(env, NoRun, first, second);
    assert "" + text == text;
  }

  /** What a message is taken apart into, put together again. */
  lemma MessageEffects(env: RenderEnv, message: Json, classify: string -> StopReason, raw: string, usage: Option<Json>)
    requires ParseMessage(env.codec, classify, message, raw, usage).Ok?
    ensures var items, text := ParseMessage(env.codec, classify, message, raw, usage).value.items, TextOf(message).value;
            && ChatItems(items)
            && Effects(env, NoRun, items) ==
               AssistantRun(ShownText(env, text), SealedPart(message, text), SentCalls(env.codec, CallsOf(message)))
  {
    var text, calls := TextOf(message).value, CallsOf(message);
    var head := MessageItems(message, text);
    HeadEffect(env, message, text);
    var spoken := Effects(env, NoRun, head);
    CallsEffect(env, calls, classify(raw).MaxTokens?, spoken);
    EffectsJoin(env, NoRun, head, ParseCalls(env.codec, calls, classify(raw).MaxTokens?).value);
    assert [] + SentCalls(env.codec, calls) == SentCalls(env.codec, calls);
  }

  /** The message sent back for a parsed message; nothing when it would say nothing. */
  function SentBack(env: RenderEnv, items: seq<ModelItem>): Option<Json>
    requires ChatItems(items)
  {
    AssistantMessage(Effects(env, NoRun, items))
  }

  /**
   What the round trip keeps: an assistant message that says something, no text of white space
   alone, no `tool_calls` without calls, and every call typed and complete.
   */
  predicate Returns(env: RenderEnv, message: Json) {
    && message.Obj? && StrOf(message, "role") == Some("assistant")
    && TextOf(message).Ok? && (TextOf(message).value == "" || !env.names.blank(TextOf(message).value))
    && ("tool_calls" in message.fields ==> CallsOf(message) != [])
    && ("content" in message.fields || "tool_calls" in message.fields)
    && CallsReturn(env.codec, CallsOf(message))
  }

  /** Of all messages the parser accepts, exactly these come back value for value. */
  lemma MessageComesBack(env: RenderEnv, message: Json, classify: string -> StopReason, raw: string, usage: Option<Json>)
    requires ParseMessage(env.codec, classify, message, raw, usage).Ok?
    ensures var items := ParseMessage(env.codec, classify, message, raw, usage).value.items;
            ChatItems(items) && (SentBack(env, items) == Some(message) <==> Returns(env, message))
  {
    MessageEffects(env, message, classify, raw, usage);
    SentCallsExactly(env.codec, CallsOf(message));
    if Returns(env, message) {
      ReturnedWhole(env, message);
    }
    if Remade(env, message) == Some(message) {
      RemadeReturns(env, message);
    }
  }

  /** The message its run makes. */
  function Remade(env: RenderEnv, message: Json): Option<Json>
    requires TextOf(message).Ok?
  {
    var text := TextOf(message).value;
    AssistantMessage(AssistantRun(ShownText(env, text), SealedPart(message, text), SentCalls(env.codec, CallsOf(message))))
  }

  lemma ResidueBack(message: Json, text: string)
    ensures ResidueObject(SealedPart(message, text)) == MessageResidue(message, text)
  {
  }

  /** The residue with the facts written over it again. */
  function Written(residue: Fields, text: string, calls: seq<Json>): Fields {
    var base := residue["role" := Str("assistant")];
    var spoken := if text == "" then base else base["content" := Str(text)];
    if calls == [] then spoken else spoken["tool_calls" := Arr(calls)]
  }

  lemma WrittenWhole(message: Json, text: string, calls: seq<Json>)
    requires message.Obj? && "role" in message.fields && message.fields["role"] == Str("assistant")
    requires text != "" ==> "content" in message.fields && message.fields["content"] == Str(text)
    requires if calls == [] then "tool_calls" !in message.fields
             else "tool_calls" in message.fields && message.fields["tool_calls"] == Arr(calls)
    ensures Written(MessageResidue(message, text), text, calls) == message.fields
  {
  }

  lemma ReturnedWhole(env: RenderEnv, message: Json)
    requires Returns(env, message)
    ensures Remade(env, message) == Some(message)
  {
    var text, calls := TextOf(message).value, CallsOf(message);
    SentCallsExactly(env.codec, calls);
    ResidueBack(message, text);
    WrittenWhole(message, text, calls);
  }

  /** What the written fields are says which facts they were written from. */
  lemma WrittenTells(message: Json, text: string, shown: string, calls: seq<Json>)
    requires message.Obj? && TextOf(message) == Ok(text) && shown in {"", text}
    requires Written(MessageResidue(message, text), shown, calls) == message.fields
    ensures StrOf(message, "role") == Some("assistant") && shown == text
    ensures CallsOf(message) == calls && ("tool_calls" in message.fields <==> calls != [])
  {
    assert text != "" ==> "content" in message.fields;
  }

  lemma {:induction false} RemadeReturns(env: RenderEnv, message: Json)
    requires TextOf(message).Ok? && Remade(env, message) == Some(message)
    ensures Returns(env, message)
  {
    var text, calls := TextOf(message).value, CallsOf(message);
    SentCallsExactly(env.codec, calls);
    ResidueBack(message, text);
    WrittenTells(message, text, ShownText(env, text), SentCalls(env.codec, calls));
  }

  /** Edited or not, a call sends its own id and name, and arguments that parse to its facts. */
  lemma {:induction false} CallSendsFacts(codec: Codec, wireId: string, name: string, arguments: Json, wire: Option<Json>)
    requires ReadsBack(codec, arguments)
    ensures var call := CallJson(codec, wireId, name, arguments, wire);
            && StrOf(call, "id") == Some(wireId) && StrOf(Function(call), "name") == Some(name)
            && StrOf(Function(call), "arguments").Some?
            && codec.parse(StrOf(Function(call), "arguments").value) == Some(arguments)
  {
    var residue := OrInsert(ResidueObject(wire), "type", Str("function"));
    var f := ResidueObject(if "function" in residue then Some(residue["function"]) else None);
    ArgumentsAlwaysParse(codec, if "arguments" in f then Some(f["arguments"]) else None, arguments);
  }

  // -- messages that do not come back -------------------------------------------------------------------

  /** An empty list of calls is not sent back. */
  lemma {:induction false} EmptyCallsAreLost(env: RenderEnv, message: Json, classify: string -> StopReason, raw: string,
                                             usage: Option<Json>)
    requires !env.names.blank("hi")
    requires message == Obj(map["role" := Str("assistant"), "content" := Str("hi"), "tool_calls" := Arr([])])
    ensures var r := ParseMessage(env.codec, classify, message, raw, usage);
            && r.Ok? && ChatItems(r.value.items)
            && SentBack(env, r.value.items) == Some(Obj(map["role" := Str("assistant"), "content" := Str("hi")]))
  {
    MessageEffects(env, message, classify, raw, usage);
    assert MessageResidue(message, "hi") == map[];
  }

  /** A message of white space is not sent back at all. */
  lemma {:induction false} WhiteSpaceIsLost(env: RenderEnv, message: Json, classify: string -> StopReason, raw: string,
                                            usage: Option<Json>)
    requires env.names.blank(" ") && message == Obj(map["role" := Str("assistant"), "content" := Str(" ")])
    ensures var r := ParseMessage(env.codec, classify, message, raw, usage);
            r.Ok? && ChatItems(r.value.items) && SentBack(env, r.value.items) == None
  {
    MessageEffects(env, message, classify, raw, usage);
    assert MessageResidue(message, " ") == map[];
  }

  lemma OneCallParses(codec: Codec, call: Json, limited: bool)
    requires ParseCall(codec, call, limited).Ok?
    ensures ParseCalls(codec, [call], limited).Ok?
  {
    assert [call][1..] == [];
  }

  function UntypedCall(arguments: string): Json {
    Obj(map["id" := Str("a"), "function" := Obj(map["name" := Str("f"), "arguments" := Str(arguments)])])
  }

  lemma UntypedParses(codec: Codec, arguments: string, limited: bool)
    requires codec.parse(arguments).Some?
    ensures Get(UntypedCall(arguments), "type").None? && ParseCall(codec, UntypedCall(arguments), false).Ok?
    ensures ParseCalls(codec, [UntypedCall(arguments)], limited).Ok?
  {
    CompleteCall(codec, UntypedCall(arguments));
    OneCallParses(codec, UntypedCall(arguments), limited);
  }

  /** A call without a type comes back with one. */
  lemma {:induction false} UntypedCallChanges(env: RenderEnv, message: Json, classify: string -> StopReason, raw: string,
                                              usage: Option<Json>, arguments: string)
    requires env.codec.parse(arguments).Some?
    requires message == Obj(map["role" := Str("assistant"), "content" := Str("hi"), "tool_calls" := Arr([UntypedCall(arguments)])])
    ensures var r := ParseMessage(env.codec, classify, message, raw, usage);
            r.Ok? && ChatItems(r.value.items) && SentBack(env, r.value.items) != Some(message)
  {
    UntypedParses(env.codec, arguments, classify(raw).MaxTokens?);
    assert CallsOf(message) == [UntypedCall(arguments)];
    MessageComesBack(env, message, classify, raw, usage);
    assert !CallReturns(env.codec, CallsOf(message)[0]);
  }

  // -- in a frame -------------------------------------------------------------------------------------

  /** The segment ends an open assistant message. */
  predicate Closes(s: Segment) {
    !StaysOpen(s)
  }

  lemma StepGrows(env: RenderEnv, c: Chat, segments: seq<Segment>)
    requires segments != []
    ensures c.messages <= Step(env, REPLAY, c, segments).messages
  {
    var s := segments[0];
    assert c.messages <= Flushed(c, s).messages;
  }

  lemma {:induction false} MessagesOnlyGrow(env: RenderEnv, c: Chat, segments: seq<Segment>)
    ensures c.messages <= Walk(env, REPLAY, c, segments).messages
    decreases |segments|
  {
    if segments != [] {
      StepGrows(env, c, segments);
      MessagesOnlyGrow(env, Step(env, REPLAY, c, segments), segments[Taken(segments)..]);
    }
  }

  /** The blocks are what an answer of these items was committed as. */
  ghost predicate CommittedAs(env: RenderEnv, output: ModelOutput, answer: seq<Block>) {
    exists ids :: ToBlocks(env.names.blank, output.items, output.stopReason, ids) == Ok(answer)
  }

  /** The frame's messages before, through and after the blocks from `at` to `end`. */
  function WalkTo(env: RenderEnv, all: seq<Block>, n: nat): Chat
    requires n <= |all|
  {
    Walk(env, REPLAY, Start, SegmentsOf(env, all, 0, n, CHAT, false))
  }

  lemma AnswerSegments(env: RenderEnv, all: seq<Block>, at: nat, end: nat, output: ModelOutput, answer: seq<Block>)
    requires ChatItems(output.items) && CommittedAs(env, output, answer) && StandsAt(all, at, answer) && end == at + |answer|
    ensures AreSegmentsOf(SegmentsOf(env, all, at, end, CHAT, false), output.items, at)
  {
    var ids :| ToBlocks(env.names.blank, output.items, output.stopReason, ids) == Ok(answer);
    ConvertedBlocks(env.names.blank, output.items, output.stopReason, ids, answer);
    SegmentsOfAnswer(env, all, at, end, output.items, ids, answer);
  }

  /** A stretch of a message's segments, after the segments before it. */
  lemma StretchWalks(env: RenderEnv, first: seq<Segment>, middle: seq<Segment>, items: seq<ModelItem>, at: nat)
    requires AreSegmentsOf(middle, items, at)
    ensures var c := Walk(env, REPLAY, Start, first);
            Walk(env, REPLAY, Start, first + middle) ==
            if AnyShows(env, items) then Chat(c.messages + c.hoisted, Some(Effects(env, RunOf(c), items)), []) else c
  {
    NoUserSeams(middle, items, at, first);
    WalkJoins(env, REPLAY, Start, first, middle);
    ItemsWalk(env, Walk(env, REPLAY, Start, first), middle, items, at);
  }

  /** The walk over the answer's blocks in a frame. */
  lemma AnswerWalks(env: RenderEnv, all: seq<Block>, at: nat, end: nat, output: ModelOutput, answer: seq<Block>)
    requires ChatItems(output.items) && CommittedAs(env, output, answer) && StandsAt(all, at, answer) && end == at + |answer|
    ensures var c := WalkTo(env, all, at);
            WalkTo(env, all, end) ==
            if AnyShows(env, output.items) then Chat(c.messages + c.hoisted, Some(Effects(env, RunOf(c), output.items)), [])
            else c
  {
    AnswerSegments(env, all, at, end, output, answer);
    SegmentsJoin(env, all, 0, at, end, CHAT, false);
    StretchWalks(env, SegmentsOf(env, all, 0, at, CHAT, false), SegmentsOf(env, all, at, end, CHAT, false), output.items, at);
  }

  /** Nothing a message is made of belongs to a user. */
  lemma NoUserSeams(middle: seq<Segment>, items: seq<ModelItem>, at: nat, first: seq<Segment>)
    requires AreSegmentsOf(middle, items, at)
    ensures SeamFree(first, middle)
  {
    if items != [] {
      AreSegmentsNext(middle, items, at);
    }
  }

  lemma NoUserSeamsAfter(middle: seq<Segment>, items: seq<ModelItem>, at: nat, first: seq<Segment>, last: seq<Segment>)
    requires AreSegmentsOf(middle, items, at) && items != []
    ensures SeamFree(first + middle, last)
  {
    assert (first + middle)[|first + middle| - 1] == middle[|middle| - 1];
    assert middle[|middle| - 1] == ItemSegment(items[|items| - 1], at + (|items| - 1));
  }

  /** What is sent for a message, as a list. */
  function Sent(env: RenderEnv, items: seq<ModelItem>): seq<Json>
    requires ChatItems(items)
  {
    var message := SentBack(env, items);
    if message.Some? then [message.value] else []
  }

  /** A stretch between segments that are not the assistant's. */
  lemma StretchReplays(env: RenderEnv, first: seq<Segment>, middle: seq<Segment>, last: seq<Segment>, items: seq<ModelItem>,
                       at: nat)
    requires AreSegmentsOf(middle, items, at) && AnyShows(env, items)
    requires Walk(env, REPLAY, Start, first).run.None? && (last == [] || Closes(last[0]))
    ensures var before := Walk(env, REPLAY, Start, first);
            before.messages + before.hoisted + Sent(env, items) <= Finished(Walk(env, REPLAY, Start, first + middle + last))
  {
    StretchWalks(env, first, middle, items, at);
    NoUserSeamsAfter(middle, items, at, first, last);
    WalkJoins(env, REPLAY, Start, first + middle, last);
    ClosedMessage(env, Walk(env, REPLAY, Start, first + middle), last, Effects(env, NoRun, items));
  }

  /**
   Every committed answer that shows anything, standing between segments that are not the
   assistant's, adds exactly the message it is put together to, right after everything before it;
   one that shows nothing leaves the walk where it was.
   */
  lemma MessageReplays(env: RenderEnv, all: seq<Block>, at: nat, end: nat, output: ModelOutput, answer: seq<Block>)
    requires ChatItems(output.items) && CommittedAs(env, output, answer) && StandsAt(all, at, answer) && end == at + |answer|
    requires WalkTo(env, all, at).run.None?
    requires var last := SegmentsOf(env, all, end, |all|, CHAT, false); last == [] || Closes(last[0])
    ensures var before := WalkTo(env, all, at);
            if AnyShows(env, output.items) then
              before.messages + before.hoisted + Sent(env, output.items) <= Finished(WalkTo(env, all, |all|))
            else WalkTo(env, all, end) == before
  {
    if AnyShows(env, output.items) {
      AnswerSegments(env, all, at, end, output, answer);
      var first, middle := SegmentsOf(env, all, 0, at, CHAT, false), SegmentsOf(env, all, at, end, CHAT, false);
      SegmentsJoin(env, all, 0, at, end, CHAT, false);
      SegmentsJoin(env, all, 0, end, |all|, CHAT, false);
      StretchReplays(env, first, middle, SegmentsOf(env, all, end, |all|, CHAT, false), output.items, at);
    } else {
      AnswerWalks(env, all, at, end, output, answer);
    }
  }

  /** The open message is closed by what follows, or by the end. */
  lemma {:induction false} ClosedMessage(env: RenderEnv, c: Chat, last: seq<Segment>, run: AssistantRun)
    requires c.run == Some(run) && c.hoisted == []
    requires last == [] || Closes(last[0])
    ensures c.messages + (if AssistantMessage(run).Some? then [AssistantMessage(run).value] else [])
            <= Finished(Walk(env, REPLAY, c, last))
  {
    var message := if AssistantMessage(run).Some? then [AssistantMessage(run).value] else [];
    if last == [] {
      assert Closed(c).messages + [] == Closed(c).messages;
    } else {
      assert c.messages + [] == c.messages;
      var next := Step(env, REPLAY, c, last);
      assert c.messages + message <= next.messages;
      MessagesOnlyGrow(env, next, last[Taken(last)..]);
      var end := Walk(env, REPLAY, c, last);
      assert end.messages <= Closed(end).messages <= Finished(end);
    }
  }
}
