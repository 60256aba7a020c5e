/** The batch parser for Anthropic Messages responses. */
module AnthropicParse {
  import opened Wrappers
  import opened Sequences
  import opened Json
  import opened Model

  /** The block types the adapter has a vocabulary for. */
  datatype BlockType = TextBlock | ThinkingBlock | ToolUseBlock | OtherBlock

  function TypeNamed(name: string): BlockType {
    if name == "text" then TextBlock
    else if name == "thinking" then ThinkingBlock
    else if name == "tool_use" then ToolUseBlock
    else OtherBlock
  }

  function TypeOf(block: Json): BlockType {
    var name := StrOf(block, "type");
    if name.Some? then TypeNamed(name.value) else OtherBlock
  }

  /** A wire item without the fields its facts hold. */
  function Without(v: Json, keys: set<string>): Json {
    if v.Obj? then Obj(v.fields - keys) else v
  }

  function ParseBlock(block: Json): Result<ModelItem, ErrorKind> {
    match TypeOf(block)
    case TextBlock =>
      var text := StrOf(block, "text");
      if text.None? then Err(Undecodable)
      else Ok(ModelItem(Parts([Text(text.value)]), Some(WireMeta(ANTHROPIC, Without(block, {"text"})))))
    case ToolUseBlock =>
      var id, name := StrOf(block, "id"), StrOf(block, "name");
      if id.None? || name.None? then Err(Undecodable)
      else
        var input := Get(block, "input");
        var call := ToolCallDraft(name.value, if input.Some? then input.value else Obj(map[]), id);
        Ok(ModelItem(ToolCall(call), Some(WireMeta(ANTHROPIC, Without(block, {"id", "name", "input"})))))
    case ThinkingBlock =>
      if StrOf(block, "thinking").None? then Err(Undecodable) else Ok(SealedItem(ANTHROPIC, block))
    case OtherBlock => Ok(SealedItem(ANTHROPIC, block))
  }

  function ParseBlocks(content: seq<Json>): Result<seq<ModelItem>, ErrorKind> {
    if content == [] then Ok([])
    else
      var first :- ParseBlock(content[0]);
      var rest :- ParseBlocks(content[1..]);
      Ok([first] + rest)
  }

  function ThinkingTexts(content: seq<Json>): seq<string> {
    if content == [] then []
    else
      (if TypeOf(content[0]).ThinkingBlock? && StrOf(content[0], "thinking").Some?
       then [StrOf(content[0], "thinking").value] else [])
      + ThinkingTexts(content[1..])
  }

  function Join(parts: seq<string>): string {
    if parts == [] then ""
    else if |parts| == 1 then parts[0]
    else parts[0] + "\n" + Join(parts[1..])
  }

  function ContentOf(response: Json): Result<seq<Json>, ErrorKind> {
    var content := GetSome(response, "content");
    if content.None? then Ok([])
    else if content.value.Arr? then Ok(content.value.items)
    else Err(Undecodable)
  }

  /** `classify` is the stop-reason table shared with the stream. */
  function ParseResponse(classify: string -> StopReason, response: Json): Result<ModelOutput, ErrorKind> {
    var content :- ContentOf(response);
    var items :- ParseBlocks(content);
    var raw := StrOf(response, "stop_reason");
    if raw.None? then Err(Undecodable)
    else
      var thoughts := ThinkingTexts(content);
      var usage := Get(response, "usage");
      Ok(ModelOutput(items, classify(raw.value), raw.value,
                     if IsObj(usage) then usage else None,
                     if thoughts == [] then None else Some(Join(thoughts))))
  }

  lemma {:induction false} ParseBlocksEach(content: seq<Json>)
    ensures ParseBlocks(content).Ok? <==> forall k :: 0 <= k < |content| ==> ParseBlock(content[k]).Ok?
    ensures ParseBlocks(content).Err? ==> ParseBlocks(content) == Err(Undecodable)
    ensures ParseBlocks(content).Ok? ==>
              && |ParseBlocks(content).value| == |content|
              && forall k :: 0 <= k < |content| ==> ParseBlock(content[k]) == Ok(ParseBlocks(content).value[k])
  {
    if content != [] {
      ParseBlocksEach(content[1..]);
      assert forall k :: 0 < k < |content| ==> content[k] == content[1..][k - 1];
      assert ParseBlock(content[0]).Ok? && ParseBlocks(content[1..]).Ok? <==> ParseBlocks(content).Ok?;
    }
  }

  lemma {:induction false} ThinkingConcat(a: seq<Json>, b: seq<Json>)
    ensures ThinkingTexts(a + b) == ThinkingTexts(a) + ThinkingTexts(b)
  {
    if a == [] {
      assert a + b == b;
    } else {
      assert (a + b)[1..] == a[1..] + b;
      ThinkingConcat(a[1..], b);
    }
  }

  /** The thoughts of two runs of blocks are joined by a line end. */
  lemma {:induction false} JoinJoins(a: seq<string>, b: seq<string>)
    requires a != [] && b != []
    ensures Join(a + b) == Join(a) + "\n" + Join(b)
    decreases |a|
  {
    if |a| == 1 {
      assert (a + b)[1..] == b;
    } else {
      assert (a + b)[1..] == a[1..] + b;
      JoinJoins(a[1..], b);
      Associate(a[0] + "\n", Join(a[1..]) + "\n", Join(b));
      Associate(a[0] + "\n", Join(a[1..]), "\n");
    }
  }

  method ParseOne(block: Json) returns (item: Result<ModelItem, ErrorKind>, thought: seq<string>)
    ensures item == ParseBlock(block)
    ensures item.Ok? ==> thought == ThinkingTexts([block])
  {
    assert [block][1..] == [];
    thought := [];
    match TypeOf(block)
    case TextBlock =>
      var text := StrOf(block, "text");
      if text.None? {
        return Err(Undecodable), [];
      }
      item := Ok(ModelItem(Parts([Text(text.value)]), Some(WireMeta(ANTHROPIC, Without(block, {"text"})))));
    case ToolUseBlock =>
      var id := StrOf(block, "id");
      if id.None? {
        return Err(Undecodable), [];
      }
      var name := StrOf(block, "name");
      if name.None? {
        return Err(Undecodable), [];
      }
      var input := Get(block, "input");
      var call := ToolCallDraft(name.value, if input.Some? then input.value else Obj(map[]), id);
      item := Ok(ModelItem(ToolCall(call), Some(WireMeta(ANTHROPIC, Without(block, {"id", "name", "input"})))));
    case ThinkingBlock =>
      var text := StrOf(block, "thinking");
      if text.None? {
        return Err(Undecodable), [];
      }
      thought := [text.value];
      item := Ok(SealedItem(ANTHROPIC, block));
    case OtherBlock =>
      item := Ok(SealedItem(ANTHROPIC, block));
  }

  lemma {:induction false} ParsedItems(content: seq<Json>, items: seq<ModelItem>)
    requires |items| == |content| && forall j :: 0 <= j < |content| ==> ParseBlock(content[j]) == Ok(items[j])
    ensures ParseBlocks(content) == Ok(items)
  {
    ParseBlocksEach(content);
    assert forall j :: 0 <= j < |content| ==> items[j] == ParseBlocks(content).value[j];
    assert items == ParseBlocks(content).value;
  }

  /** The parser as it is written: one pass over the blocks, items and thoughts pushed in order. */
  method ParseAnthropicResponse(classify: string -> StopReason, response: Json)
    returns (result: Result<ModelOutput, ErrorKind>)
    ensures result == ParseResponse(classify, response)
  {
    var content := [];
    var member := Get(response, "content");
    if member.Some? && member.value.Arr? {
      content := member.value.items;
    } else if member.Some? && member.value != Null {
      return Err(Undecodable);
    }
    var items, thoughts := [], [];
    var k := 0;
    while k < |content|
      invariant 0 <= k <= |content|
      invariant |items| == k && forall j :: 0 <= j < k ==> ParseBlock(content[j]) == Ok(items[j])
      invariant thoughts == ThinkingTexts(content[..k])
    {
      var block := content[k];
      ParseBlocksEach(content);
      assert content[..k + 1] == content[..k] + [block];
      ThinkingConcat(content[..k], [block]);
      var item, thought := ParseOne(block);
      if item.Err? {
        return Err(item.error);
      }
      items, thoughts := items + [item.value], thoughts + thought;
      k := k + 1;
    }
    assert content[..k] == content;
    ParsedItems(content, items);
    var raw := StrOf(response, "stop_reason");
    if raw.None? {
      return Err(Undecodable);
    }
    var usage := Get(response, "usage");
    result := Ok(ModelOutput(items, classify(raw.value), raw.value,
                             if IsObj(usage) then usage else None,
                             if thoughts == [] then None else Some(Join(thoughts))));
  }
}
