/**
 Responses output items, parsed, committed and rendered: what is sent back for each, and exactly
 which items and which outputs come back value for value.
 */
module ResponsesReplay {
  import opened Wrappers
  import opened Sequences
  import opened Json
  import opened Model
  import opened Blocks
  import opened Conversion
  import opened ResponsesParse
  import opened ResponsesWire
  import opened Segments

  /** The message's texts are all there is to lose: each slot holds some, and there is one. */
  predicate SpokenMessage(item: Json) {
    && StrOf(item, "role") == Some("assistant")
    && Get(item, "content").Some? && Get(item, "content").value.Arr?
    && var content := Get(item, "content").value.items;
       SlotCount(content) > 0 && AllSpoken(content)
  }

  predicate AllSpoken(content: seq<Json>) {
    forall i :: 0 <= i < |content| && IsTextPart(content[i]) ==>
                  StrOf(content[i], "text").Some? && StrOf(content[i], "text") != Some("")
  }

  /** Items the round trip keeps: messages that speak, complete calls, and everything sealed. */
  predicate Replayable(codec: Codec, item: Json) {
    var kind := StrOf(item, "type");
    if kind == Some("message") then SpokenMessage(item)
    else if kind == Some("function_call") then
      && StrOf(item, "call_id").Some? && StrOf(item, "name").Some?
      && StrOf(item, "arguments").Some? && codec.parse(StrOf(item, "arguments").value).Some?
    else kind != Some("refusal")
  }

  // -- what is sent for an item of an answer ------------------------------------------------------

  /** The items the parser makes. */
  predicate ResponsesItem(m: ModelItem) {
    match m.content
    case ToolCall(call) => call.providerCallId.Some? && m.wire.Some? && m.wire.value.format == RESPONSES
    case Parts(parts) =>
      || (m.wire.None? && |parts| == 1 && parts[0].Sealed? && parts[0].format == RESPONSES)
      || ((m.wire.None? || m.wire.value.format == RESPONSES) && forall i :: 0 <= i < |parts| ==> parts[i].Text?)
  }

  function KeptTexts(parts: seq<ContentPart>): (texts: seq<string>)
    requires forall i :: 0 <= i < |parts| ==> parts[i].Text?
    ensures forall i :: 0 <= i < |texts| ==> texts[i] != ""
  {
    if parts == [] then []
    else (if parts[0].text == "" then [] else [parts[0].text]) + KeptTexts(parts[1..])
  }

  /** Texts without their item: a message each. */
  function Spoken(texts: seq<string>): (items: seq<Json>)
    ensures |items| == |texts| && forall i :: 0 <= i < |items| ==> items[i] == RoleItem("assistant", [OutputText(texts[i])])
  {
    seq(|texts|, i requires 0 <= i < |texts| => RoleItem("assistant", [OutputText(texts[i])]))
  }

  function SentTexts(texts: seq<string>, wire: Option<Json>): seq<Json> {
    var whole := if wire.Some? then MessageFromWire(wire.value, texts) else None;
    if texts == [] then [] else if whole.Some? then [whole.value] else Spoken(texts)
  }

  function WireOf(m: ModelItem): Option<Json> {
    if m.wire.Some? then Some(m.wire.value.fields) else None
  }

  /** What the block of an item is sent as. */
  function SentItem(codec: Codec, m: ModelItem): seq<Json>
    requires ResponsesItem(m)
  {
    match m.content
    case ToolCall(call) =>
      [CallItem(codec, call.providerCallId.value, call.toolName, call.arguments, Some(m.wire.value.fields))]
    case Parts(parts) =>
      if |parts| == 1 && parts[0].Sealed? then [parts[0].item] else SentTexts(KeptTexts(parts), WireOf(m))
  }

  predicate ResponsesItems(items: seq<ModelItem>) {
    forall k :: 0 <= k < |items| ==> ResponsesItem(items[k])
  }

  function SentItems(codec: Codec, items: seq<ModelItem>): seq<Json>
    requires ResponsesItems(items)
  {
    if items == [] then [] else SentItem(codec, items[0]) + SentItems(codec, items[1..])
  }

  lemma {:induction false} SentConcat(codec: Codec, a: seq<ModelItem>, b: seq<ModelItem>)
    requires ResponsesItems(a) && ResponsesItems(b)
    ensures ResponsesItems(a + b) && SentItems(codec, a + b) == SentItems(codec, a) + SentItems(codec, b)
    decreases |a|
  {
    if a == [] {
      assert a + b == b;
    } else {
      assert (a + b)[0] == a[0] && (a + b)[1..] == a[1..] + b;
      SentConcat(codec, a[1..], b);
      Associate(SentItem(codec, a[0]), SentItems(codec, a[1..]), SentItems(codec, b));
    }
  }

  // -- calls ------------------------------------------------------------------------------------

  lemma {:induction false} CallComesBack(codec: Codec, item: Json, cutOff: bool)
    requires Replayable(codec, item) && StrOf(item, "type") == Some("function_call")
    ensures var r := ParseItem(codec, item, cutOff);
            && r.Ok? && |r.value.items| == 1 && ResponsesItem(r.value.items[0])
            && SentItem(codec, r.value.items[0]) == [item]
  {
    var rest := item.fields - {"call_id", "name"};
    assert OrInsert(rest, "type", Str("function_call")) == rest && rest["arguments"] == item.fields["arguments"];
    var back := rest["call_id" := item.fields["call_id"]]["name" := item.fields["name"]];
    assert back == item.fields;
    assert back["arguments" := item.fields["arguments"]] == item.fields;
  }

  // -- messages -----------------------------------------------------------------------------------

  function TextsIn(content: seq<Json>): seq<string> {
    if content == [] then []
    else
      (if IsTextPart(content[0]) && StrOf(content[0], "text").Some? then [StrOf(content[0], "text").value] else [])
      + TextsIn(content[1..])
  }

  function AsParts(texts: seq<string>): (parts: seq<ContentPart>)
    ensures |parts| == |texts| && forall i :: 0 <= i < |parts| ==> parts[i] == Text(texts[i])
  {
    seq(|texts|, i requires 0 <= i < |texts| => Text(texts[i]))
  }

  lemma SlotComesBack(part: Json, text: string)
    requires IsTextPart(part) && StrOf(part, "text") == Some(text)
    ensures IsTextPart(Emptied(part)) && Obj(Emptied(part).fields["text" := Str(text)]) == part
  {
    assert "type" in part.fields - {"text"};
    assert (part.fields - {"text"})["text" := Str(text)] == part.fields;
  }

  /** A text slot in front. */
  lemma TextFirst(content: seq<Json>)
    requires content != [] && IsTextPart(content[0]) && StrOf(content[0], "text").Some?
    requires SlotCount(EmptiedAll(content[1..])) == |TextsIn(content[1..])|
    ensures var text := StrOf(content[0], "text").value;
            && TextsIn(content) == [text] + TextsIn(content[1..])
            && SlotCount(EmptiedAll(content)) == |TextsIn(content)|
            && Filled(EmptiedAll(content), TextsIn(content)) ==
               [content[0]] + Filled(EmptiedAll(content[1..]), TextsIn(content[1..]))
  {
    var text := StrOf(content[0], "text").value;
    SlotComesBack(content[0], text);
    assert EmptiedAll(content)[1..] == EmptiedAll(content[1..]);
    assert ([text] + TextsIn(content[1..]))[1..] == TextsIn(content[1..]);
  }

  /** Anything else in front stays as it is. */
  lemma OtherFirst(content: seq<Json>)
    requires content != [] && !IsTextPart(content[0])
    requires SlotCount(EmptiedAll(content[1..])) == |TextsIn(content[1..])|
    ensures TextsIn(content) == TextsIn(content[1..]) && SlotCount(EmptiedAll(content)) == |TextsIn(content)|
    ensures Filled(EmptiedAll(content), TextsIn(content)) ==
            [content[0]] + Filled(EmptiedAll(content[1..]), TextsIn(content[1..]))
  {
    assert EmptiedAll(content)[1..] == EmptiedAll(content[1..]);
    assert [] + TextsIn(content[1..]) == TextsIn(content[1..]);
  }

  lemma PartsFirst(text: string, texts: seq<string>)
    ensures AsParts([text] + texts) == [Text(text)] + AsParts(texts)
  {
  }

  /** Emptied slots filled with their own texts are the original content. */
  lemma {:induction false} ContentComesBack(content: seq<Json>)
    requires TextParts(content).Ok?
    ensures TextParts(content) == Ok(AsParts(TextsIn(content)))
    ensures SlotCount(EmptiedAll(content)) == |TextsIn(content)| == SlotCount(content)
    ensures Filled(EmptiedAll(content), TextsIn(content)) == content
  {
    if content == [] {
      assert AsParts([]) == [];
    } else {
      var first, rest := content[0], content[1..];
      ContentComesBack(rest);
      if IsTextPart(first) {
        TextFirst(content);
        PartsFirst(StrOf(first, "text").value, TextsIn(rest));
      } else {
        OtherFirst(content);
      }
      assert content == [first] + rest;
    }
  }

  /** The texts that are not empty, and whether those are all. */
  function NonEmpty(texts: seq<string>): (kept: seq<string>)
    ensures |kept| <= |texts|
  {
    if texts == [] then [] else (if texts[0] == "" then [] else [texts[0]]) + NonEmpty(texts[1..])
  }

  lemma {:induction false} KeptAre(texts: seq<string>)
    ensures KeptTexts(AsParts(texts)) == NonEmpty(texts)
  {
    if texts != [] {
      assert AsParts(texts)[1..] == AsParts(texts[1..]);
      KeptAre(texts[1..]);
    }
  }

  predicate NoneEmpty(texts: seq<string>) {
    forall i :: 0 <= i < |texts| ==> texts[i] != ""
  }

  lemma {:induction false} NonEmptyAll(texts: seq<string>)
    ensures |NonEmpty(texts)| == |texts| <==> NoneEmpty(texts)
    ensures |NonEmpty(texts)| == |texts| ==> NonEmpty(texts) == texts
  {
    if texts != [] {
      NonEmptyAll(texts[1..]);
      assert texts == [texts[0]] + texts[1..];
    }
  }

  lemma NoneEmptyFirst(text: string, texts: seq<string>)
    ensures NoneEmpty([text] + texts) <==> text != "" && NoneEmpty(texts)
  {
    var all := [text] + texts;
    assert all[0] == text && forall k :: 0 <= k < |texts| ==> all[k + 1] == texts[k];
  }

  lemma SpokenBoth(a: seq<Json>, b: seq<Json>)
    ensures AllSpoken(a + b) <==> AllSpoken(a) && AllSpoken(b)
  {
    if AllSpoken(a + b) {
      assert forall k :: 0 <= k < |a| ==> (a + b)[k] == a[k];
      assert forall k :: 0 <= k < |b| ==> (a + b)[|a| + k] == b[k];
    }
  }

  lemma {:induction false} SpokenTexts(content: seq<Json>)
    requires TextParts(content).Ok?
    ensures AllSpoken(content) <==> NoneEmpty(TextsIn(content))
  {
    if content != [] {
      var first, rest := content[0], content[1..];
      SpokenTexts(rest);
      assert content == [first] + rest;
      SpokenBoth([first], rest);
      var texts := TextsIn(rest);
      if IsTextPart(first) {
        var text := StrOf(first, "text").value;
        assert TextsIn(content) == [text] + texts;
        NoneEmptyFirst(text, texts);
        assert AllSpoken([first]) <==> text != "" by {
          assert [first][0] == first;
        }
      } else {
        assert TextsIn(content) == [] + texts == texts;
      }
    }
  }

  /** Emptied of its texts and filled again, an item differs at most in its role. */
  lemma FilledAgain(item: Json, content: seq<Json>)
    requires Get(item, "content") == Some(Arr(content)) && TextParts(content).Ok?
    ensures var fields := Obj(item.fields["content" := Arr(EmptiedAll(content))]);
            MessageFromWire(fields, TextsIn(content)) == Some(Obj(item.fields["role" := Str("assistant")]))
  {
    ContentComesBack(content);
    var fields := item.fields["content" := Arr(EmptiedAll(content))];
    assert fields["content" := Arr(content)]["role" := Str("assistant")] == item.fields["role" := Str("assistant")];
  }

  /** What is sent for a parsed message: itself as the assistant's, or its texts one by one, or nothing. */
  lemma MessageIsSent(codec: Codec, item: Json)
    requires ParseMessage(item).Ok? && ParseMessage(item).value.items != []
    ensures var r := ParseMessage(item).value.items;
            && |r| == 1 && ResponsesItem(r[0]) && Get(item, "content").Some? && Get(item, "content").value.Arr?
            && var content := Get(item, "content").value.items;
               && TextParts(content).Ok?
               && var texts := NonEmpty(TextsIn(content));
                  SentItem(codec, r[0]) ==
                  if texts == [] then []
                  else if |texts| == SlotCount(content) then [Obj(item.fields["role" := Str("assistant")])]
                  else Spoken(texts)
  {
    var content := Get(item, "content").value.items;
    ContentComesBack(content);
    FilledAgain(item, content);
    KeptAre(TextsIn(content));
    NonEmptyAll(TextsIn(content));
  }

  /** A parsed message speaks exactly when it is the assistant's and has texts, none of them empty. */
  lemma SpeaksExactly(item: Json, content: seq<Json>)
    requires Get(item, "content") == Some(Arr(content)) && TextParts(content).Ok?
    ensures var texts := NonEmpty(TextsIn(content));
            && |texts| <= SlotCount(content)
            && (SpokenMessage(item) <==>
                StrOf(item, "role") == Some("assistant") && texts != [] && |texts| == SlotCount(content))
  {
    ContentComesBack(content);
    NonEmptyAll(TextsIn(content));
    SpokenTexts(content);
  }

  lemma Untyped(texts: seq<string>, item: Json)
    requires StrOf(item, "type").Some?
    ensures Spoken(texts) != [item]
  {
    if |texts| == 1 {
      assert Spoken(texts)[0] == RoleItem("assistant", [OutputText(texts[0])]);
      assert StrOf(Spoken(texts)[0], "type").None?;
    }
  }

  lemma OneSent(codec: Codec, m: ModelItem)
    requires ResponsesItem(m)
    ensures SentItems(codec, [m]) == SentItem(codec, m)
  {
    assert [m][1..] == [];
    assert SentItem(codec, m) + [] == SentItem(codec, m);
  }

  /** Of all parsed items of type `message`, exactly those that speak come back value for value. */
  lemma {:induction false} MessageComesBack(codec: Codec, item: Json)
    requires StrOf(item, "type") == Some("message") && ParseMessage(item).Ok?
    ensures var r := ParseMessage(item).value.items;
            ResponsesItems(r) && (SentItems(codec, r) == [item] <==> SpokenMessage(item))
  {
    var r := ParseMessage(item).value.items;
    if r != [] {
      MessageIsSent(codec, item);
      assert r == [r[0]];
      OneSent(codec, r[0]);
      var content := Get(item, "content").value.items;
      SpeaksExactly(item, content);
      SameRole(item);
      Untyped(NonEmpty(TextsIn(content)), item);
    }
  }

  lemma SameRole(item: Json)
    requires item.Obj?
    ensures Obj(item.fields["role" := Str("assistant")]) == item <==> StrOf(item, "role") == Some("assistant")
  {
    if StrOf(item, "role") == Some("assistant") {
      assert item.fields["role" := Str("assistant")] == item.fields;
    }
  }

  // -- which items come back ------------------------------------------------------------------------

  /** Of all items the parser accepts, exactly the replayable ones come back value for value. */
  lemma {:induction false} ItemComesBack(codec: Codec, item: Json, cutOff: bool)
    requires ParseItem(codec, item, cutOff).Ok?
    ensures var items := ParseItem(codec, item, cutOff).value.items;
            ResponsesItems(items) && (SentItems(codec, items) == [item] <==> Replayable(codec, item))
  {
    var items := ParseItem(codec, item, cutOff).value.items;
    assert items != [] ==> items[1..] == [];
    if StrOf(item, "type") == Some("message") {
      MessageComesBack(codec, item);
    } else if StrOf(item, "type") == Some("function_call") {
      if Replayable(codec, item) {
        CallComesBack(codec, item, cutOff);
      }
    } else if StrOf(item, "type") == Some("refusal") {
      RefusalIsText(codec, item, cutOff);
    }
  }

  /** A refusal item is sent as a message of its text, or not at all. */
  lemma {:induction false} RefusalIsText(codec: Codec, item: Json, cutOff: bool)
    requires StrOf(item, "type") == Some("refusal")
    ensures var items := ParseItem(codec, item, cutOff).value.items;
            ResponsesItems(items) && SentItems(codec, items) ==
            if TextIn(item, "refusal") == "" then [] else [RoleItem("assistant", [OutputText(TextIn(item, "refusal"))])]
  {
    var items := ParseItem(codec, item, cutOff).value.items;
    if items != [] {
      var text := TextIn(item, "refusal");
      assert items[0].content.parts[1..] == [];
      assert KeptTexts(items[0].content.parts) == if text == "" then [] else [text];
      assert SentItems(codec, items) == SentItem(codec, items[0]) + [];
    }
  }

  /** Such an item: it comes back as a message. */
  lemma RefusalChanges(codec: Codec, item: Json)
    requires item == Obj(map["type" := Str("refusal"), "refusal" := Str("no")])
    ensures var items := ParseItem(codec, item, false).value.items;
            ResponsesItems(items) && SentItems(codec, items) == [RoleItem("assistant", [OutputText("no")])]
            && SentItems(codec, items) != [item]
  {
    RefusalIsText(codec, item, false);
  }

  predicate AllReplayable(codec: Codec, output: seq<Json>) {
    forall k :: 0 <= k < |output| ==> Replayable(codec, output[k])
  }

  lemma SpokenComesBack(codec: Codec, texts: seq<string>)
    ensures AllReplayable(codec, Spoken(texts))
  {
    forall k | 0 <= k < |texts| ensures Replayable(codec, Spoken(texts)[k]) {
      assert StrOf(Spoken(texts)[k], "type").None?;
    }
  }

  /** The message that is sent speaks, if it is sent whole. */
  lemma WholeSpeaks(item: Json, content: seq<Json>)
    requires Get(item, "content") == Some(Arr(content)) && TextParts(content).Ok? && StrOf(item, "type") == Some("message")
    requires var texts := NonEmpty(TextsIn(content)); texts != [] && |texts| == SlotCount(content)
    ensures var whole := Obj(item.fields["role" := Str("assistant")]);
            SpokenMessage(whole) && StrOf(whole, "type") == Some("message")
  {
    SpeaksExactly(Obj(item.fields["role" := Str("assistant")]), content);
  }

  lemma {:induction false} MessageSentComesBack(codec: Codec, item: Json)
    requires StrOf(item, "type") == Some("message") && ParseMessage(item).Ok? && ParseMessage(item).value.items != []
    ensures ResponsesItems(ParseMessage(item).value.items)
    ensures AllReplayable(codec, SentItems(codec, ParseMessage(item).value.items))
  {
    var r := ParseMessage(item).value.items;
    MessageIsSent(codec, item);
    assert r == [r[0]];
    OneSent(codec, r[0]);
    var content := Get(item, "content").value.items;
    var texts := NonEmpty(TextsIn(content));
    if texts != [] && |texts| == SlotCount(content) {
      WholeSpeaks(item, content);
      assert Replayable(codec, Obj(item.fields["role" := Str("assistant")]));
    } else {
      SpokenComesBack(codec, texts);
    }
  }

  /** Whatever is sent for an item would itself come back. */
  lemma {:induction false} SentComesBack(codec: Codec, item: Json, cutOff: bool)
    requires ParseItem(codec, item, cutOff).Ok?
    ensures ResponsesItems(ParseItem(codec, item, cutOff).value.items)
    ensures AllReplayable(codec, SentItems(codec, ParseItem(codec, item, cutOff).value.items))
  {
    ItemComesBack(codec, item, cutOff);
    if Replayable(codec, item) {
    } else if StrOf(item, "type") == Some("message") {
      if ParseMessage(item).value.items != [] {
        MessageSentComesBack(codec, item);
      }
    } else if StrOf(item, "type") == Some("refusal") {
      RefusalIsText(codec, item, cutOff);
    }
  }

  lemma {:induction false} AllSentComesBack(codec: Codec, output: seq<Json>, limited: bool)
    requires ParseItems(codec, output, limited).Ok?
    ensures ResponsesItems(ParseItems(codec, output, limited).value.items)
    ensures AllReplayable(codec, SentItems(codec, ParseItems(codec, output, limited).value.items))
    decreases |output|
  {
    if output != [] {
      var cutOff := limited && |output| == 1;
      var first, rest := ParseItem(codec, output[0], cutOff).value.items, ParseItems(codec, output[1..], limited).value.items;
      SentComesBack(codec, output[0], cutOff);
      AllSentComesBack(codec, output[1..], limited);
      SentConcat(codec, first, rest);
      ReplayableBoth(codec, SentItems(codec, first), SentItems(codec, rest));
    }
  }

  lemma ReplayableBoth(codec: Codec, a: seq<Json>, b: seq<Json>)
    ensures AllReplayable(codec, a + b) <==> AllReplayable(codec, a) && AllReplayable(codec, b)
  {
    if AllReplayable(codec, a + b) {
      assert forall k :: 0 <= k < |a| ==> (a + b)[k] == a[k];
      assert forall k :: 0 <= k < |b| ==> (a + b)[|a| + k] == b[k];
    }
  }

  lemma {:induction false} ReplayableOutput(codec: Codec, output: seq<Json>, limited: bool)
    requires ParseItems(codec, output, limited).Ok? && AllReplayable(codec, output)
    ensures ResponsesItems(ParseItems(codec, output, limited).value.items)
    ensures SentItems(codec, ParseItems(codec, output, limited).value.items) == output
    decreases |output|
  {
    if output != [] {
      var cutOff := limited && |output| == 1;
      var first, rest := ParseItem(codec, output[0], cutOff).value.items, ParseItems(codec, output[1..], limited).value.items;
      assert output == [output[0]] + output[1..];
      ReplayableBoth(codec, [output[0]], output[1..]);
      ItemComesBack(codec, output[0], cutOff);
      ReplayableOutput(codec, output[1..], limited);
      SentConcat(codec, first, rest);
    }
  }

  /** Of all outputs the parser accepts, exactly those of replayable items come back as the list they were. */
  lemma OutputComesBack(codec: Codec, output: seq<Json>, limited: bool)
    requires ParseItems(codec, output, limited).Ok?
    ensures var items := ParseItems(codec, output, limited).value.items;
            ResponsesItems(items) && (SentItems(codec, items) == output <==> AllReplayable(codec, output))
  {
    AllSentComesBack(codec, output, limited);
    if AllReplayable(codec, output) {
      ReplayableOutput(codec, output, limited);
    }
  }

  // -- a block in a frame ---------------------------------------------------------------------------

  lemma {:induction false} KeptPartsAre(parts: seq<ContentPart>)
    requires forall i :: 0 <= i < |parts| ==> parts[i].Text?
    ensures KeptParts(parts) == AsParts(KeptTexts(parts))
  {
    if parts != [] {
      KeptPartsAre(parts[1..]);
    }
  }

  /** The segments of a block of texts, one each. */
  lemma {:induction false} TextSegmentsOf(env: RenderEnv, texts: seq<string>, n: nat, block: nat, wire: Option<Json>)
    requires n <= |texts| && forall i :: 0 <= i < |texts| ==> texts[i] != ""
    ensures var segments := PartSegments(env, Assistant, AsParts(texts), n, block, wire, RESPONSES);
            && |segments| == n
            && forall i :: 0 <= i < n ==> segments[i] == TextSegment(Assistant, texts[i], block, |texts|, wire)
    decreases n
  {
    if n > 0 {
      TextSegmentsOf(env, texts, n - 1, block, wire);
    }
  }

  lemma {:induction false} WholeRun(segments: seq<Segment>, block: nat)
    requires forall i :: 0 <= i < |segments| ==> SameBlockText(segments[i], block)
    ensures TextRun(segments, block) == |segments|
  {
    if segments != [] {
      WholeRun(segments[1..], block);
    }
  }

  function WithItems(input: Input, items: seq<Json>): Input {
    input.(items := input.items + items)
  }

  /** The segments render to these items, wherever the walk is. */
  ghost predicate RendersTo(env: RenderEnv, segments: seq<Segment>, sent: seq<Json>) {
    forall input, leading :: Walk(env, input, segments, leading) == WithItems(input, sent)
  }

  lemma OneStep(env: RenderEnv, segments: seq<Segment>, item: Json)
    requires segments != [] && Taken(segments) == |segments|
    requires forall input, leading :: Step(env, input, segments, leading) == WithItem(input, item)
    ensures RendersTo(env, segments, [item])
  {
    assert segments[Taken(segments)..] == [];
  }

  /** Segments that are a block's texts, one each. */
  predicate AreTexts(segments: seq<Segment>, texts: seq<string>, block: nat, wire: Option<Json>) {
    |segments| == |texts|
    && forall i :: 0 <= i < |texts| ==> segments[i] == TextSegment(Assistant, texts[i], block, |texts|, wire)
  }

  /** Texts of one block of `parts` parts. */
  predicate OneBlockTexts(segments: seq<Segment>, block: nat, parts: nat) {
    forall i :: 0 <= i < |segments| ==> SameBlockText(segments[i], block) && segments[i].parts == parts
  }

  lemma TextStep(env: RenderEnv, input: Input, segments: seq<Segment>, block: nat, leading: nat)
    requires segments != [] && SameBlockText(segments[0], block) && WireMessage(segments).None?
    ensures Walk(env, input, segments, leading) ==
            Walk(env, WithItem(input, RoleItem("assistant", [OutputText(segments[0].text)])), segments[1..],
                 if leading > 0 then leading - 1 else 0)
  {
    assert Taken(segments) == 1;
  }

  /** Texts that cannot be put back into an item are sent one by one. */
  lemma {:induction false} TextsAlone(env: RenderEnv, input: Input, segments: seq<Segment>, block: nat, parts: nat,
                                      leading: nat)
    requires OneBlockTexts(segments, block, parts) && |segments| <= parts
    requires segments != [] ==> SameBlockText(segments[0], block) && WireMessage(segments).None?
    ensures OneBlockTexts(segments, block, parts)
            && Walk(env, input, segments, leading) == WithItems(input, Spoken(Texts(segments)))
    decreases |segments|
  {
    if segments == [] {
      assert input.items + [] == input.items;
    } else {
      var rest, first := segments[1..], RoleItem("assistant", [OutputText(segments[0].text)]);
      if rest != [] {
        WholeRun(rest, block);
        assert SameBlockText(rest[0], block) && WireMessage(rest).None?;
      }
      TextStep(env, input, segments, block, leading);
      TextsAlone(env, WithItem(input, first), rest, block, parts, if leading > 0 then leading - 1 else 0);
      SpokenFirst(input, segments);
    }
  }

  lemma SpokenMore(text: string, texts: seq<string>)
    ensures Spoken([text] + texts) == [RoleItem("assistant", [OutputText(text)])] + Spoken(texts)
  {
    var all := Spoken([text] + texts);
    forall k | 0 < k < |all| ensures all[k] == Spoken(texts)[k - 1] {
      assert ([text] + texts)[k] == texts[k - 1];
    }
  }

  lemma SpokenFirst(input: Input, segments: seq<Segment>)
    requires segments != [] && forall i :: 0 <= i < |segments| ==> segments[i].TextSegment?
    ensures WithItems(WithItem(input, RoleItem("assistant", [OutputText(segments[0].text)])), Spoken(Texts(segments[1..]))) ==
            WithItems(input, Spoken(Texts(segments)))
  {
    var first, rest := RoleItem("assistant", [OutputText(segments[0].text)]), Texts(segments[1..]);
    assert Texts(segments) == [segments[0].text] + rest;
    SpokenMore(segments[0].text, rest);
    Associate(input.items, [first], Spoken(rest));
  }

  lemma {:induction false} TextsRender(env: RenderEnv, segments: seq<Segment>, texts: seq<string>, block: nat,
                                       wire: Option<Json>)
    requires AreTexts(segments, texts, block, wire)
    ensures RendersTo(env, segments, SentTexts(texts, wire))
  {
    WholeRun(segments, block);
    assert segments[..|segments|] == segments && Texts(segments) == texts;
    if texts != [] && WireMessage(segments).Some? {
      OneStep(env, segments, WireMessage(segments).value);
    } else {
      forall input, leading ensures Walk(env, input, segments, leading) == WithItems(input, SentTexts(texts, wire)) {
        TextsAlone(env, input, segments, block, |texts|, leading);
        assert texts == [] ==> Spoken(texts) == [];
      }
    }
  }

  /** What the block of an item renders to; an item that becomes no block is sent as nothing. */
  lemma {:induction false} ItemBlockRenders(env: RenderEnv, all: seq<Block>, i: nat, inPlace: bool, m: ModelItem, id: BlockId)
    requires ResponsesItem(m) && i < |all| && all[i] == BlockOf(m, id)
    ensures RendersTo(env, BlockSegments(env, all, i, RESPONSES, inPlace), SentItem(env.codec, m))
  {
    var segments := BlockSegments(env, all, i, RESPONSES, inPlace);
    if m.content.ToolCall? {
      assert |segments| == 1 && Taken(segments) == 1;
      OneStep(env, segments, SentItem(env.codec, m)[0]);
    } else if |m.content.parts| == 1 && m.content.parts[0].Sealed? {
      SealedRenders(env, all, i, inPlace, m, id);
    } else {
      TextBlockRenders(env, all, i, inPlace, m, id);
    }
  }

  lemma SealedRenders(env: RenderEnv, all: seq<Block>, i: nat, inPlace: bool, m: ModelItem, id: BlockId)
    requires ResponsesItem(m) && m.content.Parts? && |m.content.parts| == 1 && m.content.parts[0].Sealed?
    requires i < |all| && all[i] == BlockOf(m, id)
    ensures RendersTo(env, BlockSegments(env, all, i, RESPONSES, inPlace), SentItem(env.codec, m))
  {
    var part := m.content.parts[0];
    KeptOne(part);
    assert m.content.parts == [part];
    OnePart(env, part, i, None, RESPONSES);
    var segments := BlockSegments(env, all, i, RESPONSES, inPlace);
    assert segments == [SealedSegment(part.item)];
    OneStep(env, segments, part.item);
  }

  lemma {:induction false} TextBlockRenders(env: RenderEnv, all: seq<Block>, i: nat, inPlace: bool, m: ModelItem, id: BlockId)
    requires ResponsesItem(m) && m.content.Parts? && (forall k :: 0 <= k < |m.content.parts| ==> m.content.parts[k].Text?)
    requires i < |all| && all[i] == BlockOf(m, id)
    ensures RendersTo(env, BlockSegments(env, all, i, RESPONSES, inPlace), SentItem(env.codec, m))
  {
    var texts := KeptTexts(m.content.parts);
    KeptPartsAre(m.content.parts);
    TextSegmentsOf(env, texts, |texts|, i, WireOf(m));
    TextsRender(env, BlockSegments(env, all, i, RESPONSES, inPlace), texts, i, WireOf(m));
  }

  lemma SealedCommits(m: ModelItem)
    requires ResponsesItem(m) && m.content.Parts? && exists i :: 0 <= i < |m.content.parts| && !m.content.parts[i].Text?
    ensures Commits(m)
  {
    KeptOne(m.content.parts[0]);
    assert m.content.parts == [m.content.parts[0]];
  }

  lemma DroppedSendsNothing(codec: Codec, m: ModelItem)
    requires ResponsesItem(m) && !Commits(m)
    ensures SentItem(codec, m) == []
  {
    if forall i :: 0 <= i < |m.content.parts| ==> m.content.parts[i].Text? {
      KeptPartsAre(m.content.parts);
    } else {
      SealedCommits(m);
    }
  }

  // -- seams --------------------------------------------------------------------------------------------

  /** Texts carry the index of their own block. */
  predicate BlocksWithin(segments: seq<Segment>, lo: nat, hi: nat) {
    forall k :: 0 <= k < |segments| && (segments[k].TextSegment? || segments[k].MediaSegment?) ==> lo <= segments[k].block < hi
  }

  lemma {:induction false} PartBlocks(env: RenderEnv, role: Role, parts: seq<ContentPart>, n: nat, block: nat,
                                      wire: Option<Json>)
    requires n <= |parts|
    ensures BlocksWithin(PartSegments(env, role, parts, n, block, wire, RESPONSES), block, block + 1)
    decreases n
  {
    if n > 0 {
      PartBlocks(env, role, parts, n - 1, block, wire);
    }
  }

  lemma OwnBlock(env: RenderEnv, all: seq<Block>, i: nat, inPlace: bool)
    requires i < |all|
    ensures BlocksWithin(BlockSegments(env, all, i, RESPONSES, inPlace), i, i + 1)
  {
    var b := all[i];
    if b.content.Message? {
      PartBlocks(env, b.content.role, b.content.parts, |b.content.parts|, i,
                 if b.content.role.Assistant? then OwnWire(b, RESPONSES) else None);
    }
  }

  lemma {:induction false} SegmentBlocks(env: RenderEnv, all: seq<Block>, lo: nat, hi: nat, inPlace: bool)
    requires lo <= hi <= |all|
    ensures BlocksWithin(SegmentsOf(env, all, lo, hi, RESPONSES, inPlace), lo, hi)
    decreases hi
  {
    if lo < hi {
      SegmentBlocks(env, all, lo, hi - 1, inPlace);
      OwnBlock(env, all, hi - 1, inPlace);
    }
  }

  lemma SeamAt(env: RenderEnv, all: seq<Block>, lo: nat, mid: nat, hi: nat, inPlace: bool)
    requires lo <= mid <= hi <= |all|
    ensures ResponsesWire.SeamFree(SegmentsOf(env, all, lo, mid, RESPONSES, inPlace),
                                   SegmentsOf(env, all, mid, hi, RESPONSES, inPlace))
  {
    SegmentBlocks(env, all, lo, mid, inPlace);
    SegmentBlocks(env, all, mid, hi, inPlace);
  }

  // -- in a frame -----------------------------------------------------------------------------------------

  /** What the blocks up to `n` render to. */
  function RenderedUpTo(env: RenderEnv, all: seq<Block>, n: nat, inPlace: bool): Input
    requires n <= |all|
  {
    Walk(env, Start, SegmentsOf(env, all, 0, n, RESPONSES, inPlace),
         LeadingSystem(SegmentsOf(env, all, 0, |all|, RESPONSES, inPlace)))
  }

  /** Anywhere in a frame, the block of an item adds exactly what the item is sent as. */
  lemma {:induction false} ItemReplays(env: RenderEnv, all: seq<Block>, i: nat, inPlace: bool, m: ModelItem, id: BlockId)
    requires ResponsesItem(m) && i < |all| && all[i] == BlockOf(m, id)
    ensures Adds(env, all, i, i + 1, inPlace, SentItem(env.codec, m))
  {
    ItemBlockRenders(env, all, i, inPlace, m, id);
    SegmentsJoin(env, all, 0, i, i + 1, RESPONSES, inPlace);
    OneBlock(env, all, i, RESPONSES, inPlace);
    SeamAt(env, all, 0, i, i + 1, inPlace);
    StretchRenders(env, SegmentsOf(env, all, 0, i, RESPONSES, inPlace), BlockSegments(env, all, i, RESPONSES, inPlace),
                   LeadingSystem(SegmentsOf(env, all, 0, |all|, RESPONSES, inPlace)), SentItem(env.codec, m));
  }

  lemma StretchRenders(env: RenderEnv, first: seq<Segment>, middle: seq<Segment>, leading: nat, sent: seq<Json>)
    requires RendersTo(env, middle, sent) && ResponsesWire.SeamFree(first, middle)
    ensures Walk(env, Start, first + middle, leading) == WithItems(Walk(env, Start, first, leading), sent)
  {
    WalkJoins(env, Start, first, middle, leading);
  }

  /** What the first blocks rendered to is still there, first, when the whole frame is rendered. */
  lemma LaterOnlyAdds(env: RenderEnv, all: seq<Block>, n: nat, inPlace: bool)
    requires n <= |all|
    ensures RenderedUpTo(env, all, n, inPlace).items <= RenderedUpTo(env, all, |all|, inPlace).items
  {
    var first, last := SegmentsOf(env, all, 0, n, RESPONSES, inPlace), SegmentsOf(env, all, n, |all|, RESPONSES, inPlace);
    var leading := LeadingSystem(SegmentsOf(env, all, 0, |all|, RESPONSES, inPlace));
    SegmentsJoin(env, all, 0, n, |all|, RESPONSES, inPlace);
    SeamAt(env, all, 0, n, |all|, inPlace);
    WalkJoins(env, Start, first, last, leading);
    ItemsOnlyGrow(env, Walk(env, Start, first, leading), last, LeadingAfter(leading, first));
  }

  // -- a whole answer in a frame ------------------------------------------------------------------------------

  /** From `at` to `end` the frame adds these items. */
  predicate Adds(env: RenderEnv, all: seq<Block>, at: nat, end: nat, inPlace: bool, sent: seq<Json>) {
    at <= |all| && end <= |all|
    && RenderedUpTo(env, all, end, inPlace) == WithItems(RenderedUpTo(env, all, at, inPlace), sent)
  }

  lemma AddsNothing(env: RenderEnv, all: seq<Block>, at: nat, inPlace: bool)
    requires at <= |all|
    ensures Adds(env, all, at, at, inPlace, [])
  {
    var before := RenderedUpTo(env, all, at, inPlace);
    assert before.items + [] == before.items;
  }

  lemma WithMore(input: Input, mid: Input, end: Input, a: seq<Json>, b: seq<Json>)
    requires mid == WithItems(input, a) && end == WithItems(mid, b)
    ensures end == WithItems(input, a + b)
  {
    assert input.items + a + b == input.items + (a + b);
  }

  lemma AddsMore(env: RenderEnv, all: seq<Block>, at: nat, mid: nat, end: nat, inPlace: bool, a: seq<Json>, b: seq<Json>)
    requires Adds(env, all, at, mid, inPlace, a) && Adds(env, all, mid, end, inPlace, b)
    ensures Adds(env, all, at, end, inPlace, a + b)
  {
    WithMore(RenderedUpTo(env, all, at, inPlace), RenderedUpTo(env, all, mid, inPlace), RenderedUpTo(env, all, end, inPlace), a, b);
  }

  /** The blocks an answer was committed as, one item after the other. */
  lemma {:induction false} BlocksReplay(env: RenderEnv, all: seq<Block>, at: nat, end: nat, inPlace: bool,
                                        items: seq<ModelItem>, ids: seq<BlockId>, answer: seq<Block>)
    requires ResponsesItems(items) && |ids| == BlockCount(items) && answer == BlocksFor(items, ids)
    requires StandsAt(all, at, answer) && end == at + |answer|
    ensures Adds(env, all, at, end, inPlace, SentItems(env.codec, items))
    decreases |items|
  {
    if items == [] {
      AddsNothing(env, all, at, inPlace);
    } else if Commits(items[0]) {
      BlocksForRest(items, ids);
      StandsFirst(all, at, answer);
      ItemReplays(env, all, at, inPlace, items[0], ids[0]);
      BlocksReplay(env, all, at + 1, end, inPlace, items[1..], ids[1..], answer[1..]);
      AddsMore(env, all, at, at + 1, end, inPlace, SentItem(env.codec, items[0]), SentItems(env.codec, items[1..]));
    } else {
      DroppedSendsNothing(env.codec, items[0]);
      BlocksReplay(env, all, at, end, inPlace, items[1..], ids, answer);
      assert [] + SentItems(env.codec, items[1..]) == SentItems(env.codec, items[1..]);
    }
  }

  /** `answer` is what a parsed output was committed as. */
  ghost predicate CommittedAs(env: RenderEnv, output: seq<Json>, limited: bool, answer: seq<Block>) {
    && ParseItems(env.codec, output, limited).Ok?
    && exists stop, ids :: ToBlocks(env.names.blank, ParseItems(env.codec, output, limited).value.items, stop, ids) == Ok(answer)
  }

  /** What is sent for a parsed output. */
  function SentBack(codec: Codec, output: seq<Json>, limited: bool): seq<Json>
    requires ParseItems(codec, output, limited).Ok?
  {
    AllSentComesBack(codec, output, limited);
    SentItems(codec, ParseItems(codec, output, limited).value.items)
  }

  /**
   A committed output, anywhere in a frame, adds exactly what is sent for it, right after what the
   blocks before it render to, and the rest of the frame leaves it there.
   */
  lemma {:induction false} OutputReplays(env: RenderEnv, all: seq<Block>, at: nat, end: nat, inPlace: bool,
                                         output: seq<Json>, limited: bool,
                                         answer: seq<Block>)
    requires CommittedAs(env, output, limited, answer) && StandsAt(all, at, answer) && end == at + |answer|
    ensures Adds(env, all, at, end, inPlace, SentBack(env.codec, output, limited))
    ensures RenderedUpTo(env, all, end, inPlace).items <= RenderedUpTo(env, all, |all|, inPlace).items
  {
    var items := ParseItems(env.codec, output, limited).value.items;
    var stop, ids :| ToBlocks(env.names.blank, items, stop, ids) == Ok(answer);
    ConvertedBlocks(env.names.blank, items, stop, ids, answer);
    AllSentComesBack(env.codec, output, limited);
    BlocksReplay(env, all, at, end, inPlace, items, ids, answer);
    LaterOnlyAdds(env, all, end, inPlace);
  }
}
