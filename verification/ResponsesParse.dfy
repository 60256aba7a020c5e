/** The batch parser for OpenAI Responses outputs. */
module ResponsesParse {
  import opened Wrappers
  import opened Json
  import opened Model
  import AnthropicParse
  import ChatParse

  function Without(v: Json, keys: set<string>): Json {
    AnthropicParse.Without(v, keys)
  }

  predicate IsTextPart(part: Json) {
    StrOf(part, "type") == Some("output_text")
  }

  /** The texts of a message item, in order. */
  function TextParts(content: seq<Json>): Result<seq<ContentPart>, ErrorKind> {
    if content == [] then Ok([])
    else if IsTextPart(content[0]) then
      if StrOf(content[0], "text").None? then Err(Undecodable)
      else
        var rest :- TextParts(content[1..]);
        Ok([Text(StrOf(content[0], "text").value)] + rest)
    else TextParts(content[1..])
  }

  /** A text slot without its text. */
  function Emptied(part: Json): Json {
    if IsTextPart(part) then Without(part, {"text"}) else part
  }

  function EmptiedAll(content: seq<Json>): (r: seq<Json>)
    ensures |r| == |content| && forall i :: 0 <= i < |r| ==> r[i] == Emptied(content[i])
  {
    seq(|content|, i requires 0 <= i < |content| => Emptied(content[i]))
  }

  predicate HasRefusal(content: seq<Json>) {
    exists i :: 0 <= i < |content| && StrOf(content[i], "type") == Some("refusal")
  }

  /** What one output item becomes, and whether it marks a refusal. */
  datatype Parsed = Parsed(items: seq<ModelItem>, refusal: bool)

  function ParseMessage(item: Json): Result<Parsed, ErrorKind> {
    var content := GetSome(item, "content");
    if content.None? then Ok(Parsed([], false))
    else if !content.value.Arr? then Err(Undecodable)
    else
      var parts :- TextParts(content.value.items);
      var fields := Obj(item.fields["content" := Arr(EmptiedAll(content.value.items))]);
      Ok(Parsed([ModelItem(Parts(parts), Some(WireMeta(RESPONSES, fields)))], HasRefusal(content.value.items)))
  }

  function ParseFunctionCall(codec: Codec, item: Json, cutOff: bool): Result<Parsed, ErrorKind> {
    var id, name := StrOf(item, "call_id"), StrOf(item, "name");
    if id.None? || name.None? then Err(Undecodable)
    else
      var arguments :- ChatParse.DecodeArguments(codec, Get(item, "arguments"), cutOff);
      if arguments.None? then Ok(Parsed([], false))
      else
        Ok(Parsed([ModelItem(ToolCall(ToolCallDraft(name.value, arguments.value, id)),
                             Some(WireMeta(RESPONSES, Without(item, {"call_id", "name"}))))], false))
  }

  function ParseItem(codec: Codec, item: Json, cutOff: bool): Result<Parsed, ErrorKind> {
    var kind := StrOf(item, "type");
    if kind == Some("message") then ParseMessage(item)
    else if kind == Some("function_call") then ParseFunctionCall(codec, item, cutOff)
    else if kind == Some("refusal") then
      var text := StrOf(item, "refusal");
      Ok(Parsed(if text.Some? then [ModelItem(Parts([Text(text.value)]), None)] else [], true))
    else Ok(Parsed([SealedItem(RESPONSES, item)], false))
  }

  function ParseItems(codec: Codec, output: seq<Json>, limited: bool): Result<Parsed, ErrorKind> {
    if output == [] then Ok(Parsed([], false))
    else
      var first :- ParseItem(codec, output[0], limited && |output| == 1);
      var rest :- ParseItems(codec, output[1..], limited);
      Ok(Parsed(first.items + rest.items, first.refusal || rest.refusal))
  }
}
