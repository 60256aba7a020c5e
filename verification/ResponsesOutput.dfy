/** A whole Responses body: its status, its items in order, and the stop reason they add up to. */
module ResponsesOutput {
  import opened Wrappers
  import opened Json
  import opened Model
  import opened ResponsesParse
  import AnthropicParse

  /** Maps a terminal status and its reason. */
  type StopTable = (string, Option<string>) -> StopReason

  function IncompleteReason(status: string, response: Json): Option<string> {
    var details := Get(response, "incomplete_details");
    if status == "incomplete" && details.Some? then StrOf(details.value, "reason") else None
  }

  function RawStop(status: string, reason: Option<string>): string {
    if status == "incomplete" && reason.Some? then status + "." + reason.value else status
  }

  function OutputOf(response: Json): Result<seq<Json>, ErrorKind> {
    var output := GetSome(response, "output");
    if output.None? then Ok([]) else if output.value.Arr? then Ok(output.value.items) else Err(Undecodable)
  }

  // -- reasoning ----------------------------------------------------------------------------

  function TextsUnder(parts: seq<Json>, key: string): seq<string> {
    if parts == [] then []
    else
      (if (key == "summary" || StrOf(parts[0], "type") == Some("reasoning_text")) && StrOf(parts[0], "text").Some?
       then [StrOf(parts[0], "text").value] else [])
      + TextsUnder(parts[1..], key)
  }

  function TextsAt(item: Json, key: string): seq<string> {
    var parts := Get(item, key);
    if parts.Some? && parts.value.Arr? then TextsUnder(parts.value.items, key) else []
  }

  /** The summary, or the raw reasoning when there is none. */
  function Thoughts(item: Json): seq<string> {
    if StrOf(item, "type") != Some("reasoning") then []
    else if TextsAt(item, "summary") != [] then TextsAt(item, "summary")
    else TextsAt(item, "content")
  }

  /** The thoughts of the first `n` outputs. */
  function ThoughtsTo(output: seq<Json>, n: nat): seq<string>
    requires n <= |output|
  {
    if n == 0 then [] else ThoughtsTo(output, n - 1) + Thoughts(output[n - 1])
  }

  function AllThoughts(output: seq<Json>): seq<string> {
    ThoughtsTo(output, |output|)
  }

  // -- the body -----------------------------------------------------------------------------

  predicate HasCall(items: seq<ModelItem>) {
    exists i :: 0 <= i < |items| && items[i].content.ToolCall?
  }

  /** A refusal is one whatever the status says, and a finished answer that calls tools is a tool use. */
  function StopOf(mapped: StopReason, p: Parsed): StopReason {
    if p.refusal then Refusal else if mapped.EndTurn? && HasCall(p.items) then ToolUse else mapped
  }

  function ParseOutput(codec: Codec, table: StopTable, response: Json): Result<ModelOutput, ErrorKind> {
    var status := StrOf(response, "status");
    if status.None? then Err(Undecodable)
    else if status.value == "failed" then Err(ProviderReported)
    else if status.value !in {"completed", "incomplete"} then Err(UnknownOutcome)
    else
      var reason := IncompleteReason(status.value, response);
      var mapped := table(status.value, reason);
      var output :- OutputOf(response);
      var parsed :- ParseItems(codec, output, mapped.MaxTokens?);
      var thoughts, usage := AllThoughts(output), Get(response, "usage");
      Ok(ModelOutput(parsed.items, StopOf(mapped, parsed), RawStop(status.value, reason),
                     if IsObj(usage) then usage else None,
                     if thoughts == [] then None else Some(AnthropicParse.Join(thoughts))))
  }

  // -- the loop -----------------------------------------------------------------------------

  function Both(p: Parsed, q: Parsed): Parsed {
    Parsed(p.items + q.items, p.refusal || q.refusal)
  }

  function Onward(p: Parsed, rest: Result<Parsed, ErrorKind>): Result<Parsed, ErrorKind> {
    if rest.Err? then rest else Ok(Both(p, rest.value))
  }

  lemma NothingYet(rest: Result<Parsed, ErrorKind>)
    ensures Onward(Parsed([], false), rest) == rest
  {
    if rest.Ok? {
      assert [] + rest.value.items == rest.value.items;
    }
  }

  /** Item `k` taken off the rest. */
  lemma OneMore(codec: Codec, output: seq<Json>, limited: bool, k: nat, p: Parsed)
    requires k < |output|
    ensures var first := ParseItem(codec, output[k], limited && k + 1 == |output|);
            Onward(p, ParseItems(codec, output[k..], limited)) ==
            if first.Err? then Err(first.error) else Onward(Both(p, first.value), ParseItems(codec, output[k + 1..], limited))
  {
    var rest := output[k..];
    assert rest[0] == output[k] && rest[1..] == output[k + 1..];
    var first := ParseItem(codec, output[k], limited && k + 1 == |output|);
    var later := ParseItems(codec, output[k + 1..], limited);
    if first.Ok? && later.Ok? {
      assert p.items + (first.value.items + later.value.items) == p.items + first.value.items + later.value.items;
    }
  }

  /** The first `k` outputs gave these items and thoughts, and the rest gives the rest. */
  predicate Collected(codec: Codec, output: seq<Json>, limited: bool, k: nat, p: Parsed, thoughts: seq<string>) {
    && k <= |output| && thoughts == ThoughtsTo(output, k)
    && Onward(p, ParseItems(codec, output[k..], limited)) == ParseItems(codec, output, limited)
  }

  lemma CollectedMore(codec: Codec, output: seq<Json>, limited: bool, k: nat, p: Parsed, thoughts: seq<string>)
    requires Collected(codec, output, limited, k, p, thoughts) && k < |output|
    ensures var first := ParseItem(codec, output[k], limited && k + 1 == |output|);
            if first.Err? then ParseItems(codec, output, limited) == Err(first.error)
            else Collected(codec, output, limited, k + 1, Both(p, first.value), thoughts + Thoughts(output[k]))
  {
    OneMore(codec, output, limited, k, p);
  }

  lemma CollectedFirst(codec: Codec, output: seq<Json>, limited: bool)
    ensures Collected(codec, output, limited, 0, Parsed([], false), [])
  {
    NothingYet(ParseItems(codec, output, limited));
    assert output[0..] == output;
  }

  lemma CollectedAll(codec: Codec, output: seq<Json>, limited: bool, p: Parsed, thoughts: seq<string>)
    requires Collected(codec, output, limited, |output|, p, thoughts)
    ensures ParseItems(codec, output, limited) == Ok(p) && thoughts == AllThoughts(output)
  {
    assert output[|output|..] == [];
    assert p.items + [] == p.items;
  }

  /** The items as the parser collects them: pushed in order, with the thoughts beside them. */
  method CollectItems(codec: Codec, output: seq<Json>, limited: bool)
    returns (result: Result<(Parsed, seq<string>), ErrorKind>)
    ensures match ParseItems(codec, output, limited)
            case Err(kind) => result == Err(kind)
            case Ok(parsed) => result == Ok((parsed, AllThoughts(output)))
  {
    var items, refusal, thoughts, k := [], false, [], 0;
    CollectedFirst(codec, output, limited);
    while k < |output|
      invariant 0 <= k <= |output| && Collected(codec, output, limited, k, Parsed(items, refusal), thoughts)
    {
      CollectedMore(codec, output, limited, k, Parsed(items, refusal), thoughts);
      var one := ParseItem(codec, output[k], limited && k + 1 == |output|);
      if one.Err? {
        return Err(one.error);
      }
      items, refusal := items + one.value.items, refusal || one.value.refusal;
      thoughts := thoughts + Thoughts(output[k]);
      k := k + 1;
    }
    CollectedAll(codec, output, limited, Parsed(items, refusal), thoughts);
    result := Ok((Parsed(items, refusal), thoughts));
  }

  method ParseResponsesOutput(codec: Codec, table: StopTable, response: Json) returns (result: Result<ModelOutput, ErrorKind>)
    ensures result == ParseOutput(codec, table, response)
  {
    var status := StrOf(response, "status");
    if status.None? {
      return Err(Undecodable);
    }
    if status.value == "failed" {
      return Err(ProviderReported);
    }
    if status.value != "completed" && status.value != "incomplete" {
      return Err(UnknownOutcome);
    }
    var reason := IncompleteReason(status.value, response);
    var mapped := table(status.value, reason);
    var output := OutputOf(response);
    if output.Err? {
      return Err(output.error);
    }
    var collected := CollectItems(codec, output.value, mapped.MaxTokens?);
    if collected.Err? {
      return Err(collected.error);
    }
    var (parsed, thoughts) := collected.value;
    var usage := Get(response, "usage");
    result := Ok(ModelOutput(parsed.items, StopOf(mapped, parsed), RawStop(status.value, reason),
                             if IsObj(usage) then usage else None,
                             if thoughts == [] then None else Some(AnthropicParse.Join(thoughts))));
  }

  // -- what a reader may rely on ------------------------------------------------------------

  predicate Refuses(item: Json) {
    || StrOf(item, "type") == Some("refusal")
    || (StrOf(item, "type") == Some("message")
        && match Get(item, "content")
           case Some(Arr(parts)) => exists k :: 0 <= k < |parts| && Get(parts[k], "type") == Some(Str("refusal"))
           case _ => false)
  }

  lemma {:induction false} RefusalsCount(codec: Codec, output: seq<Json>, limited: bool)
    requires ParseItems(codec, output, limited).Ok?
    ensures ParseItems(codec, output, limited).value.refusal <==> exists i :: 0 <= i < |output| && Refuses(output[i])
    decreases |output|
  {
    if output != [] {
      var rest := output[1..];
      RefusalsCount(codec, rest, limited);
      var p := ParseItem(codec, output[0], limited && |output| == 1).value;
      assert p.refusal <==> Refuses(output[0]);
      if later :| 0 <= later < |rest| && Refuses(rest[later]) {
        assert Refuses(output[later + 1]);
      } else if i :| 0 <= i < |output| && Refuses(output[i]) {
        assert i > 0 ==> Refuses(rest[i - 1]);
      }
    }
  }

  /**
   An accepted body stops with a refusal exactly when its status says so or an item refuses, and
   never ends the turn while it calls a tool: the runner would refuse to commit that.
   */
  lemma StopReasonTells(codec: Codec, table: StopTable, response: Json)
    requires ParseOutput(codec, table, response).Ok?
    ensures var output, out := OutputOf(response).value, ParseOutput(codec, table, response).value;
            var status := StrOf(response, "status").value;
            var mapped := table(status, IncompleteReason(status, response));
            var calls := exists k :: 0 <= k < |out.items| && out.items[k].content.ToolCall?;
            && (out.stopReason.Refusal? <==> mapped.Refusal? || exists i :: 0 <= i < |output| && Refuses(output[i]))
            && (out.stopReason.EndTurn? ==> mapped.EndTurn? && !calls)
            && (!out.stopReason.Refusal? && mapped.EndTurn? && calls ==> out.stopReason.ToolUse?)
  {
    var status := StrOf(response, "status").value;
    var mapped := table(status, IncompleteReason(status, response));
    RefusalsCount(codec, OutputOf(response).value, mapped.MaxTokens?);
  }

  predicate IsCallItem(item: Json) {
    StrOf(item, "type") == Some("function_call")
  }

  function CallItems(output: seq<Json>): nat {
    if output == [] then 0 else (if IsCallItem(output[0]) then 1 else 0) + CallItems(output[1..])
  }

  function CallsAmong(items: seq<ModelItem>): nat {
    if items == [] then 0 else (if items[0].content.ToolCall? then 1 else 0) + CallsAmong(items[1..])
  }

  lemma {:induction false} CallsConcat(a: seq<ModelItem>, b: seq<ModelItem>)
    ensures CallsAmong(a + b) == CallsAmong(a) + CallsAmong(b)
    decreases |a|
  {
    if a == [] {
      assert a + b == b;
    } else {
      assert (a + b)[1..] == a[1..] + b;
      CallsConcat(a[1..], b);
    }
  }

  /** The last item is a call whose arguments are not complete. */
  predicate CutOff(codec: Codec, output: seq<Json>) {
    && output != [] && IsCallItem(output[|output| - 1])
    && var raw := StrOf(output[|output| - 1], "arguments");
       raw.None? || codec.parse(raw.value).None?
  }

  lemma OneItemCalls(codec: Codec, item: Json, cutOff: bool)
    requires ParseItem(codec, item, cutOff).Ok?
    ensures CallsAmong(ParseItem(codec, item, cutOff).value.items) ==
            if IsCallItem(item) && !CutOff(codec, [item]) then 1 else 0
    ensures CutOff(codec, [item]) ==> cutOff
  {
    var items := ParseItem(codec, item, cutOff).value.items;
    assert items != [] ==> items[1..] == [];
  }

  /** No call is lost, except a last one that the token limit cut off. */
  lemma {:induction false} CallsAreKept(codec: Codec, output: seq<Json>, limited: bool)
    requires ParseItems(codec, output, limited).Ok?
    ensures CallsAmong(ParseItems(codec, output, limited).value.items) ==
            CallItems(output) - if CutOff(codec, output) then 1 else 0
    ensures CutOff(codec, output) ==> limited
    decreases |output|
  {
    if output != [] {
      var rest := output[1..];
      CallsAreKept(codec, rest, limited);
      OneItemCalls(codec, output[0], limited && |output| == 1);
      var first := ParseItem(codec, output[0], limited && |output| == 1).value;
      CallsConcat(first.items, ParseItems(codec, rest, limited).value.items);
      if rest == [] {
        assert output == [output[0]];
      } else {
        assert output[|output| - 1] == rest[|rest| - 1];
      }
    }
  }
}
