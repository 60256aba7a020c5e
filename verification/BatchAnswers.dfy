/** What the three batch parsers answer, read off the JSON of the response with its names written out. */
module BatchAnswers {
  import opened Wrappers
  import opened Sequences
  import opened Json
  import opened Model
  import AnthropicParse
  import ChatParse
  import ResponsesParse
  import ResponsesOutput

  predicate Typed(v: Json, name: string) {
    Get(v, "type") == Some(Str(name))
  }

  /** Usage is passed on when it is an object. */
  predicate UsagePassed(response: Json, usage: Option<Json>) {
    match Get(response, "usage")
    case Some(Obj(fields)) => usage == Some(Obj(fields))
    case _ => usage == None
  }

  /** A list member that may be missing or null. */
  function Listed(response: Json, key: string): Option<seq<Json>> {
    match Get(response, key)
    case Some(Arr(items)) => Some(items)
    case Some(Null) => Some([])
    case None => Some([])
    case _ => None
  }

  /** The texts are shown with a line end between one and the next; none are not shown. */
  predicate Shows(texts: seq<string>, shown: Option<string>) {
    if texts == [] then shown == None else shown == Some(AnthropicParse.Join(texts))
  }

  // -- Anthropic ------------------------------------------------------------------------------------

  /** The item a content block becomes. */
  predicate BlockReads(block: Json, item: ModelItem) {
    if Typed(block, "text") then
      && block.Obj? && "text" in block.fields && block.fields["text"].Str?
      && item == ModelItem(Parts([Text(block.fields["text"].s)]),
                           Some(WireMeta("anthropic_messages", Obj(block.fields - {"text"}))))
    else if Typed(block, "tool_use") then
      && block.Obj? && StrOf(block, "id").Some? && StrOf(block, "name").Some?
      && item == ModelItem(ToolCall(ToolCallDraft(StrOf(block, "name").value,
                                                  if "input" in block.fields then block.fields["input"] else Obj(map[]),
                                                  StrOf(block, "id"))),
                           Some(WireMeta("anthropic_messages", Obj(block.fields - {"id", "name", "input"}))))
    else item == ModelItem(Parts([Sealed("anthropic_messages", block)]), None)
  }

  /** The thinking texts of a content array, in order. */
  function ThinkingIn(content: seq<Json>): seq<string> {
    if content == [] then []
    else
      var last := content[|content| - 1];
      ThinkingIn(content[..|content| - 1]) + if Typed(last, "thinking") then [TextIn(last, "thinking")] else []
  }

  lemma {:induction false} BlockRead(block: Json)
    requires AnthropicParse.ParseBlock(block).Ok?
    ensures BlockReads(block, AnthropicParse.ParseBlock(block).value)
  {
  }

  lemma {:induction false} ThinkingRead(content: seq<Json>)
    requires AnthropicParse.ParseBlocks(content).Ok?
    ensures AnthropicParse.ThinkingTexts(content) == ThinkingIn(content)
    decreases |content|
  {
    if content != [] {
      var early, last := content[..|content| - 1], content[|content| - 1];
      AnthropicParse.ParseBlocksEach(content);
      AnthropicParse.ParseBlocksEach(early);
      ThinkingRead(early);
      SplitLast(content);
      AnthropicParse.ThinkingConcat(early, [last]);
      assert [last][1..] == [];
      assert AnthropicParse.ParseBlock(last).Ok?;
    }
  }

  predicate BlocksRead(content: seq<Json>, items: seq<ModelItem>) {
    |items| == |content| && forall k :: 0 <= k < |items| ==> BlockReads(content[k], items[k])
  }

  lemma {:induction false} AllBlocksRead(content: seq<Json>)
    requires AnthropicParse.ParseBlocks(content).Ok?
    ensures BlocksRead(content, AnthropicParse.ParseBlocks(content).value)
  {
    AnthropicParse.ParseBlocksEach(content);
    forall k | 0 <= k < |content| ensures BlockReads(content[k], AnthropicParse.ParseBlocks(content).value[k]) {
      BlockRead(content[k]);
    }
  }

  lemma ContentRead(response: Json)
    requires AnthropicParse.ContentOf(response).Ok?
    ensures Listed(response, "content") == Some(AnthropicParse.ContentOf(response).value)
  {
  }

  /** An accepted Anthropic response: its blocks one by one, its stop reason, its usage and its thoughts. */
  lemma {:induction false} AnthropicReads(classify: string -> StopReason, response: Json)
    requires AnthropicParse.ParseResponse(classify, response).Ok?
    ensures var out, content := AnthropicParse.ParseResponse(classify, response).value, Listed(response, "content");
            && content.Some? && BlocksRead(content.value, out.items)
            && Get(response, "stop_reason") == Some(Str(out.rawStopReason)) && out.stopReason == classify(out.rawStopReason)
            && UsagePassed(response, out.usage) && Shows(ThinkingIn(content.value), out.reasoning)
  {
    ContentRead(response);
    var content := AnthropicParse.ContentOf(response).value;
    AllBlocksRead(content);
    ThinkingRead(content);
  }

  // -- Chat -------------------------------------------------------------------------------------------

  /** The one choice of a response, and its message. */
  predicate ChoiceIs(response: Json, choice: Json, message: Json) {
    Get(response, "choices") == Some(Arr([choice])) && Get(choice, "message") == Some(message)
  }

  lemma ChoiceRead(response: Json)
    requires ChatParse.ChoiceOf(response).Some?
    ensures Get(response, "choices") == Some(Arr([ChatParse.ChoiceOf(response).value]))
  {
    var items := response.fields["choices"].items;
    assert items == [items[0]];
  }

  /** What an accepted message's answer says beside its items. */
  predicate MessageReads(classify: string -> StopReason, response: Json, choice: Json, message: Json, out: ModelOutput) {
    && Get(choice, "finish_reason") == Some(Str(out.rawStopReason)) && out.stopReason == classify(out.rawStopReason)
    && UsagePassed(response, out.usage) && out.reasoning == StrOf(message, "reasoning_content")
  }

  /** An accepted Chat response: its stop reason, its usage and its thoughts. */
  lemma {:induction false} ChatReads(codec: Codec, classify: string -> StopReason, response: Json)
    requires ChatParse.ParseResponse(codec, classify, response).Ok?
    ensures var out := ChatParse.ParseResponse(codec, classify, response).value;
            exists choice, message ::
              ChoiceIs(response, choice, message) && MessageReads(classify, response, choice, message, out)
  {
    var choice := ChatParse.ChoiceOf(response).value;
    ChoiceRead(response);
    assert ChoiceIs(response, choice, Get(choice, "message").value);
  }

  // -- Responses --------------------------------------------------------------------------------------

  lemma {:induction false} PartsRefusedAs(content: seq<Json>)
    ensures ResponsesParse.TextParts(content).Err? ==> ResponsesParse.TextParts(content).error == Undecodable
    decreases |content|
  {
    if content != [] {
      PartsRefusedAs(content[1..]);
    }
  }

  lemma {:induction false} ItemRefusedAs(codec: Codec, item: Json, cutOff: bool)
    ensures ResponsesParse.ParseItem(codec, item, cutOff).Err? ==>
              ResponsesParse.ParseItem(codec, item, cutOff).error == Undecodable
  {
    if StrOf(item, "type") == Some("message") && GetSome(item, "content").Some? && GetSome(item, "content").value.Arr? {
      PartsRefusedAs(GetSome(item, "content").value.items);
    }
  }

  lemma {:induction false} ItemsRefusedAs(codec: Codec, output: seq<Json>, limited: bool)
    ensures ResponsesParse.ParseItems(codec, output, limited).Err? ==>
              ResponsesParse.ParseItems(codec, output, limited).error == Undecodable
    decreases |output|
  {
    if output != [] {
      ItemRefusedAs(codec, output[0], limited && |output| == 1);
      ItemsRefusedAs(codec, output[1..], limited);
    }
  }

  /** Why a body is refused: it failed, its status has no outcome, or it cannot be decoded. */
  lemma {:induction false} ResponsesRefusedAs(codec: Codec, table: ResponsesOutput.StopTable, response: Json)
    ensures var answer := ResponsesOutput.ParseOutput(codec, table, response);
            match Get(response, "status")
            case Some(Str(status)) =>
              if status == "failed" then answer == Err(ProviderReported)
              else if status != "completed" && status != "incomplete" then answer == Err(UnknownOutcome)
              else answer.Err? ==> answer.error == Undecodable
            case _ => answer == Err(Undecodable)
  {
    var status := StrOf(response, "status");
    if status.Some? && ResponsesOutput.OutputOf(response).Ok? {
      var mapped := table(status.value, ResponsesOutput.IncompleteReason(status.value, response));
      ItemsRefusedAs(codec, ResponsesOutput.OutputOf(response).value, mapped.MaxTokens?);
    }
  }

  /** The texts of a list of parts, of all or of one type only. */
  function PartTexts(parts: seq<Json>, all: bool): seq<string> {
    if parts == [] then []
    else
      var last := parts[|parts| - 1];
      PartTexts(parts[..|parts| - 1], all)
      + if StrOf(last, "text").Some? && (all || Typed(last, "reasoning_text")) then [TextIn(last, "text")] else []
  }

  function PartsIn(item: Json, key: string): seq<Json> {
    match Get(item, key)
    case Some(Arr(items)) => items
    case _ => []
  }

  /** The summary of a reasoning item; its raw reasoning only when there is no summary. */
  function ReasoningIn(item: Json): seq<string> {
    if !Typed(item, "reasoning") then []
    else
      var summary := PartTexts(PartsIn(item, "summary"), true);
      if |summary| > 0 then summary else PartTexts(PartsIn(item, "content"), false)
  }

  function ReasoningOf(output: seq<Json>): seq<string> {
    if output == [] then [] else ReasoningOf(output[..|output| - 1]) + ReasoningIn(output[|output| - 1])
  }

  lemma {:induction false} TextsFirst(parts: seq<Json>, all: bool)
    requires parts != []
    ensures PartTexts(parts, all) ==
            (if StrOf(parts[0], "text").Some? && (all || Typed(parts[0], "reasoning_text")) then [TextIn(parts[0], "text")]
             else []) + PartTexts(parts[1..], all)
    decreases |parts|
  {
    if |parts| == 1 {
      assert parts[..0] == [] && parts[1..] == [];
    } else {
      var early, last := parts[..|parts| - 1], parts[|parts| - 1];
      TextsFirst(early, all);
      assert parts[1..][..|parts| - 2] == early[1..] && parts[1..][|parts| - 2] == last;
    }
  }

  lemma {:induction false} TextsRead(parts: seq<Json>, key: string)
    requires key == "summary" || key == "content"
    ensures ResponsesOutput.TextsUnder(parts, key) == PartTexts(parts, key == "summary")
    decreases |parts|
  {
    if parts != [] {
      TextsRead(parts[1..], key);
      TextsFirst(parts, key == "summary");
    }
  }

  lemma {:induction false} ItemReasoning(item: Json)
    ensures ResponsesOutput.Thoughts(item) == ReasoningIn(item)
  {
    TextsRead(PartsIn(item, "summary"), "summary");
    TextsRead(PartsIn(item, "content"), "content");
  }

  lemma {:induction false} ReasoningRead(output: seq<Json>, n: nat)
    requires n <= |output|
    ensures ResponsesOutput.ThoughtsTo(output, n) == ReasoningOf(output[..n])
    decreases n
  {
    if n > 0 {
      ReasoningRead(output, n - 1);
      ItemReasoning(output[n - 1]);
      assert output[..n][..n - 1] == output[..n - 1];
    }
  }

  /** What the raw stop reason must be: the status, and behind a dot why it is incomplete. */
  predicate RawReads(response: Json, raw: string) {
    match Get(response, "status")
    case Some(Str(status)) =>
      (match Get(response, "incomplete_details")
       case Some(details) =>
         if status == "incomplete" && StrOf(details, "reason").Some?
         then raw == "incomplete." + StrOf(details, "reason").value else raw == status
       case None => raw == status)
    case _ => false
  }

  lemma {:induction false} RawRead(response: Json, status: string)
    requires Get(response, "status") == Some(Str(status))
    ensures RawReads(response, ResponsesOutput.RawStop(status, ResponsesOutput.IncompleteReason(status, response)))
  {
    assert "incomplete" + "." == "incomplete.";
  }

  lemma {:induction false} OutputRead(response: Json)
    requires ResponsesOutput.OutputOf(response).Ok?
    ensures Listed(response, "output") == Some(ResponsesOutput.OutputOf(response).value)
    ensures ResponsesOutput.AllThoughts(ResponsesOutput.OutputOf(response).value) ==
            ReasoningOf(ResponsesOutput.OutputOf(response).value)
  {
    var output := ResponsesOutput.OutputOf(response).value;
    ReasoningRead(output, |output|);
    assert output[..|output|] == output;
  }

  /** An accepted Responses body: its raw stop reason, its usage and its reasoning. */
  lemma {:induction false} ResponsesReads(codec: Codec, table: ResponsesOutput.StopTable, response: Json)
    requires ResponsesOutput.ParseOutput(codec, table, response).Ok?
    ensures var out, output := ResponsesOutput.ParseOutput(codec, table, response).value, Listed(response, "output");
            && output.Some? && RawReads(response, out.rawStopReason) && UsagePassed(response, out.usage)
            && Shows(ReasoningOf(output.value), out.reasoning)
  {
    RawRead(response, StrOf(response, "status").value);
    OutputRead(response);
  }
}
