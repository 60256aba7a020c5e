/** The batch parser for OpenAI Chat Completions responses. */
module ChatParse {
  import opened Wrappers
  import opened Json
  import opened Model
  import AnthropicParse

  function Without(v: Json, keys: set<string>): Json {
    AnthropicParse.Without(v, keys)
  }

  /** Arguments travel as a JSON string; only a call the token limit cut off may lack a complete one. */
  function DecodeArguments(codec: Codec, raw: Option<Json>, cutOff: bool): Result<Option<Json>, ErrorKind> {
    var text := AsStr(raw);
    var parsed := if text.Some? then codec.parse(text.value) else None;
    if parsed.Some? then Ok(parsed)
    else if cutOff then Ok(None)
    else Err(Undecodable)
  }

  /** The entry minus its id and function name; the arguments string stays. */
  function CallResidue(call: Json): Json {
    var rest := Without(call, {"id"});
    var function_ := Get(rest, "function");
    if rest.Obj? && IsObj(function_) then Obj(rest.fields["function" := Without(function_.value, {"name"})]) else rest
  }

  function Function(call: Json): Json {
    var f := Get(call, "function");
    if f.Some? then f.value else Null
  }

  /** One call: an item, or nothing when the limit cut it off. */
  function ParseCall(codec: Codec, call: Json, cutOff: bool): Result<seq<ModelItem>, ErrorKind> {
    var id, name := StrOf(call, "id"), StrOf(Function(call), "name");
    if id.None? || name.None? then Err(Undecodable)
    else
      var arguments :- DecodeArguments(codec, Get(Function(call), "arguments"), cutOff);
      if arguments.None? then Ok([])
      else
        Ok([ModelItem(ToolCall(ToolCallDraft(name.value, arguments.value, id)),
                      Some(WireMeta(CHAT, CallResidue(call))))])
  }

  function ParseCalls(codec: Codec, calls: seq<Json>, limited: bool): Result<seq<ModelItem>, ErrorKind> {
    if calls == [] then Ok([])
    else
      var first :- ParseCall(codec, calls[0], limited && |calls| == 1);
      var rest :- ParseCalls(codec, calls[1..], limited);
      Ok(first + rest)
  }

  function TextOf(message: Json): Result<string, ErrorKind> {
    var content := GetSome(message, "content");
    if content.None? then Ok("")
    else if content.value.Str? then Ok(content.value.s)
    else Err(Undecodable)
  }

  /** Message-level keys the facts do not hold travel as one sealed item, first. */
  function MessageResidue(message: Json, text: string): Fields {
    if !message.Obj? then map[]
    else message.fields - (if text == "" then {"role", "tool_calls"} else {"role", "tool_calls", "content"})
  }

  function MessageItems(message: Json, text: string): seq<ModelItem> {
    var residue := MessageResidue(message, text);
    (if residue == map[] then [] else [SealedItem(CHAT, Obj(residue))])
    + (if text == "" then [] else [ModelItem(Parts([Text(text)]), None)])
  }

  function CallsOf(message: Json): seq<Json> {
    var calls := Get(message, "tool_calls");
    if calls.Some? && calls.value.Arr? then calls.value.items else []
  }

  function ChoiceOf(response: Json): Option<Json> {
    var choices := Get(response, "choices");
    if choices.Some? && choices.value.Arr? && |choices.value.items| == 1 then Some(choices.value.items[0]) else None
  }

  function ParseMessage(codec: Codec, classify: string -> StopReason, message: Json, raw: string, usage: Option<Json>)
    : Result<ModelOutput, ErrorKind>
  {
    var text :- TextOf(message);
    var calls :- ParseCalls(codec, CallsOf(message), classify(raw).MaxTokens?);
    Ok(ModelOutput(MessageItems(message, text) + calls, classify(raw), raw,
                   if IsObj(usage) then usage else None, StrOf(message, "reasoning_content")))
  }

  function ParseResponse(codec: Codec, classify: string -> StopReason, response: Json): Result<ModelOutput, ErrorKind> {
    var choice := ChoiceOf(response);
    if choice.None? || Get(choice.value, "message").None? || StrOf(choice.value, "finish_reason").None? then Err(Undecodable)
    else
      ParseMessage(codec, classify, Get(choice.value, "message").value,
                   StrOf(choice.value, "finish_reason").value, Get(response, "usage"))
  }

  /** What one call contributes, whether or not it may be cut off, once its arguments are complete. */
  lemma CompleteCall(codec: Codec, call: Json)
    requires ParseCall(codec, call, false).Ok?
    ensures ParseCall(codec, call, true) == ParseCall(codec, call, false)
  {
  }

  lemma {:induction false} CallsErrKind(codec: Codec, calls: seq<Json>, limited: bool)
    ensures ParseCalls(codec, calls, limited).Err? ==> ParseCalls(codec, calls, limited) == Err(Undecodable)
  {
    if calls != [] {
      CallsErrKind(codec, calls[1..], limited);
    }
  }

  /** All calls complete: the token limit changes nothing. */
  lemma {:induction false} CallsSnoc(codec: Codec, calls: seq<Json>, last: Json, limited: bool)
    ensures ParseCalls(codec, calls + [last], limited) ==
            Both(ParseCalls(codec, calls, false), ParseCall(codec, last, limited))
    decreases |calls|
  {
    var all := calls + [last];
    if calls == [] {
      assert all == [last] && all[1..] == [];
      var one := ParseCall(codec, last, limited);
      assert one.Ok? ==> one.value + [] == one.value && [] + one.value == one.value;
      CallErrKind(codec, last, limited);
    } else {
      assert all[0] == calls[0] && all[1..] == calls[1..] + [last];
      CallsSnoc(codec, calls[1..], last, limited);
      CallErrKind(codec, calls[0], false);
      CallsErrKind(codec, calls[1..], false);
      var first, end := ParseCall(codec, calls[0], false), ParseCall(codec, last, limited);
      var middle := ParseCalls(codec, calls[1..], false);
      if first.Ok? && middle.Ok? && end.Ok? {
        assert first.value + (middle.value + end.value) == first.value + middle.value + end.value;
      }
    }
  }

  lemma CallErrKind(codec: Codec, call: Json, cutOff: bool)
    ensures ParseCall(codec, call, cutOff).Err? ==> ParseCall(codec, call, cutOff) == Err(Undecodable)
  {
  }

  function Both(a: Result<seq<ModelItem>, ErrorKind>, b: Result<seq<ModelItem>, ErrorKind>)
    : Result<seq<ModelItem>, ErrorKind>
  {
    if a.Ok? && b.Ok? then Ok(a.value + b.value) else Err(Undecodable)
  }

  function After(items: seq<ModelItem>, rest: Result<seq<ModelItem>, ErrorKind>): Result<seq<ModelItem>, ErrorKind> {
    if rest.Ok? then Ok(items + rest.value) else rest
  }

  lemma AfterFirst(codec: Codec, items: seq<ModelItem>, calls: seq<Json>, limited: bool)
    requires calls != []
    ensures var first := ParseCall(codec, calls[0], limited && |calls| == 1);
            var rest := ParseCalls(codec, calls[1..], limited);
            After(items, ParseCalls(codec, calls, limited)) ==
            if first.Err? then Err(Undecodable) else After(items + first.value, rest)
  {
    var first := ParseCall(codec, calls[0], limited && |calls| == 1);
    var rest := ParseCalls(codec, calls[1..], limited);
    CallErrKind(codec, calls[0], limited && |calls| == 1);
    if first.Ok? && rest.Ok? {
      assert items + (first.value + rest.value) == items + first.value + rest.value;
    }
  }

  /** The parser's loop over the calls. */
  method ParseWireCalls(codec: Codec, calls: seq<Json>, limited: bool) returns (result: Result<seq<ModelItem>, ErrorKind>)
    ensures result == ParseCalls(codec, calls, limited)
  {
    var items, k := [], 0;
    ghost var whole := ParseCalls(codec, calls, limited);
    assert calls[0..] == calls;
    assert whole.Ok? ==> [] + whole.value == whole.value;
    while k < |calls|
      invariant 0 <= k <= |calls|
      invariant After(items, ParseCalls(codec, calls[k..], limited)) == whole
    {
      AfterFirst(codec, items, calls[k..], limited);
      assert calls[k..][1..] == calls[k + 1..];
      var item := ParseCall(codec, calls[k], limited && k + 1 == |calls|);
      if item.Err? {
        CallErrKind(codec, calls[k], limited && k + 1 == |calls|);
        return Err(item.error);
      }
      items := items + item.value;
      k := k + 1;
    }
    assert items + [] == items;
    result := Ok(items);
  }
}
