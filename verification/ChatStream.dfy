/**
 The Chat stream assembler: content, reasoning and tool-call fragments of several calls,
 interleaved, until `[DONE]`.
 */
module ChatStream {
  import opened Wrappers
  import opened Json
  import opened Model
  import opened StreamCommon
  import opened ChatParse

  datatype Tool = Tool(id: Option<string>, name: string, arguments: string)

  /** Tool indexes are checked to follow declaration order, so the index map is a sequence. */
  datatype State = State(id: Option<string>, text: string, reasoning: string, tools: seq<Tool>,
                         finish: Option<string>, usage: Fields, hasUsage: bool, bytes: nat)

  const Initial := State(None, "", "", [], None, map[], false, 0)

  type Reaction = Result<(State, seq<StreamDelta>), ErrorKind>

  // -- one tool-call fragment ---------------------------------------------------------------

  function CallFunction(call: Json): Json {
    Function(call)
  }

  predicate StrOrAbsent(v: Json, key: string) {
    Get(v, key).Some? ==> StrOf(v, key).Some?
  }

  /** The fragment's members have the types the protocol gives them. */
  predicate WellTyped(call: Json) {
    && (Get(call, "type").Some? ==> Get(call, "type") == Some(Str("function")))
    && StrOrAbsent(call, "id") && StrOf(call, "id") != Some("")
    && (Get(call, "function").Some? ==> CallFunction(call).Obj?)
    && StrOrAbsent(CallFunction(call), "name") && StrOrAbsent(CallFunction(call), "arguments")
  }

  function IndexOf(call: Json): Option<nat> {
    AsU64(Get(call, "index"))
  }

  function CallDelta(call: Json): StreamDelta {
    var i := IndexOf(call);
    ToolCallDelta(if i.Some? then i.value else 0, StrOf(call, "id"),
                  StrOf(CallFunction(call), "name"), StrOf(CallFunction(call), "arguments"))
  }

  predicate IdElsewhere(tools: seq<Tool>, i: nat, id: Option<string>) {
    id.Some? && exists j :: 0 <= j < |tools| && j != i && tools[j].id == id
  }

  predicate IdChanged(tool: Tool, id: Option<string>) {
    id.Some? && tool.id.Some? && tool.id != id
  }

  function Extended(tool: Tool, call: Json): Tool {
    Tool(if tool.id.Some? then tool.id else StrOf(call, "id"),
         tool.name + TextIn(CallFunction(call), "name"),
         tool.arguments + TextIn(CallFunction(call), "arguments"))
  }

  function CallCost(tool: Tool, call: Json): nat {
    (if tool.id.None? then |TextIn(call, "id")| else 0)
    + |TextIn(CallFunction(call), "name")| + |TextIn(CallFunction(call), "arguments")|
  }

  /** The tools with room made for the fragment's index; nothing when it skips ahead or is one too many. */
  function Declared(env: Env, tools: seq<Tool>, call: Json): Option<seq<Tool>> {
    var i := IndexOf(call);
    if i.None? then None
    else if i.value < |tools| then Some(tools)
    else if |tools| >= env.maxItems || i.value != |tools| then None
    else Some(tools + [Tool(None, "", "")])
  }

  function Charge(env: Env, st: State, cost: nat): Result<State, ErrorKind> {
    if st.bytes + cost > env.maxOutput then Err(Undecodable) else Ok(st.(bytes := st.bytes + cost))
  }

  function TakeCall(env: Env, st: State, call: Json): Result<State, ErrorKind> {
    var declared := Declared(env, st.tools, call);
    if declared.None? || !WellTyped(call) then Err(Undecodable)
    else
      var tools, i, id := declared.value, IndexOf(call).value, StrOf(call, "id");
      if IdElsewhere(tools, i, id) || IdChanged(tools[i], id) then Err(Undecodable)
      else Charge(env, st.(tools := tools[i := Extended(tools[i], call)]), CallCost(tools[i], call))
  }

  /** Fragments in order; each adds a delta, and the queue limit holds after each. */
  function TakeCalls(env: Env, st: State, calls: seq<Json>, out: seq<StreamDelta>): Reaction
    decreases |calls|
  {
    if calls == [] then Ok((st, out))
    else
      var next :- TakeCall(env, st, calls[0]);
      var more := out + [CallDelta(calls[0])];
      if |more| > env.maxPending then Err(Undecodable) else TakeCalls(env, next, calls[1..], more)
  }

  // -- one event ----------------------------------------------------------------------------

  function TakeId(env: Env, st: State, v: Json): Result<State, ErrorKind> {
    var id := Get(v, "id");
    if id.None? then Ok(st)
    else if !id.value.Str? then Err(Undecodable)
    else if st.id.Some? then (if st.id.value == id.value.s then Ok(st) else Err(Undecodable))
    else Charge(env, st.(id := Some(id.value.s)), |id.value.s|)
  }

  /** A member that is absent, null or a string. */
  predicate NullableStr(v: Json, key: string) {
    GetSome(v, key).Some? ==> GetSome(v, key).value.Str?
  }

  predicate GoodChoice(choice: Json) {
    var delta := Get(choice, "delta");
    && AsU64(Get(choice, "index")) == Some(0) && IsObj(delta)
    && NullableStr(delta.value, "content") && NullableStr(delta.value, "reasoning_content")
    && Get(delta.value, "function_call").None?
    && (Get(delta.value, "tool_calls").Some? ==> Get(delta.value, "tool_calls").value.Arr?)
    && NullableStr(choice, "finish_reason")
  }

  function DeltaOf(choice: Json): Json {
    var delta := Get(choice, "delta");
    if delta.Some? then delta.value else Null
  }

  function CallsIn(choice: Json): seq<Json> {
    CallsOf(DeltaOf(choice))
  }

  function TakeChoice(env: Env, st: State, choice: Json): Reaction {
    if st.finish.Some? || !GoodChoice(choice) then Err(Undecodable)
    else
      var text, reasoning := TextIn(DeltaOf(choice), "content"), TextIn(DeltaOf(choice), "reasoning_content");
      var spoken :- Charge(env, st.(text := st.text + text, reasoning := st.reasoning + reasoning), |text| + |reasoning|);
      var called :- TakeCalls(env, spoken, CallsIn(choice), if text == "" then [] else [TextDelta(text)]);
      var finish := GetSome(choice, "finish_reason");
      Ok((if finish.Some? then called.0.(finish := Some(finish.value.s)) else called.0, called.1))
  }

  function TakeUsage(env: Env, st: State, v: Json, out: seq<StreamDelta>): Reaction {
    var update := GetSome(v, "usage");
    if update.None? then Ok((st, out))
    else
      var usage :- MergeUsage(st.usage, update.value);
      var charged :- Charge(env, st.(usage := usage, hasUsage := true), Growth(env.codec, st.usage, usage));
      Ok((charged, out + [Usage(Obj(usage))]))
  }

  function Choices(v: Json): Option<seq<Json>> {
    var choices := Get(v, "choices");
    if choices.Some? && choices.value.Arr? then Some(choices.value.items) else None
  }

  function Step(env: Env, st: State, v: Json): Reaction {
    if GetSome(v, "error").Some? then Err(ProviderReported)
    else
      var named :- TakeId(env, st, v);
      var choices := Choices(v);
      if choices.None? || |choices.value| > 1 then Err(Undecodable)
      else
        var chosen :- if choices.value == [] then Ok((named, [])) else TakeChoice(env, named, choices.value[0]);
        TakeUsage(env, chosen.0, v, chosen.1)
  }

  // -- the end ------------------------------------------------------------------------------

  function CallJson(tool: Tool): Json {
    var f := Obj(map["name" := Str(tool.name), "arguments" := Str(tool.arguments)]);
    var base: Fields := map["type" := Str("function"), "function" := f];
    Obj(if tool.id.Some? then base["id" := Str(tool.id.value)] else base)
  }

  predicate Complete(env: Env, tool: Tool) {
    env.codec.parse(tool.arguments).Some?
  }

  /** The calls that go into the message: a last one cut off by the token limit is left out. */
  function Kept(env: Env, tools: seq<Tool>, limited: bool): seq<Tool> {
    if limited && tools != [] && !Complete(env, tools[|tools| - 1]) then tools[..|tools| - 1] else tools
  }

  predicate Sendable(env: Env, tool: Tool) {
    tool.id.Some? && tool.name != "" && Complete(env, tool)
  }

  function CallsJson(tools: seq<Tool>): seq<Json> {
    if tools == [] then [] else CallsJson(tools[..|tools| - 1]) + [CallJson(tools[|tools| - 1])]
  }

  /** The message a batch response would have carried. */
  function MessageJson(text: string, reasoning: string, tools: seq<Tool>): Json {
    var base: Fields := map["role" := Str("assistant"), "tool_calls" := Arr(CallsJson(tools))];
    var spoken := if text == "" then base else base["content" := Str(text)];
    Obj(if reasoning == "" then spoken else spoken["reasoning_content" := Str(reasoning)])
  }

  function ResponseJson(message: Json, finish: string, usage: Option<Fields>): Json {
    var choice := Obj(map["message" := message, "finish_reason" := Str(finish)]);
    var base: Fields := map["choices" := Arr([choice])];
    Obj(if usage.Some? then base["usage" := Obj(usage.value)] else base)
  }

  function UsageOf(st: State): Option<Fields> {
    if st.hasUsage then Some(st.usage) else None
  }

  /** `[DONE]`. */
  function Finish(env: Env, st: State): Result<ModelOutput, ErrorKind> {
    if st.finish.None? then Err(Undecodable)
    else
      var kept := Kept(env, st.tools, env.classify(st.finish.value).MaxTokens?);
      if exists i :: 0 <= i < |kept| && !Sendable(env, kept[i]) then Err(Undecodable)
      else
        ParseResponse(env.codec, env.classify,
                      ResponseJson(MessageJson(st.text, st.reasoning, kept), st.finish.value, UsageOf(st)))
  }

  /** The batch parse of the whole message, every call included. */
  function Batch(env: Env, st: State): Result<ModelOutput, ErrorKind> {
    if st.finish.None? then Err(Undecodable)
    else
      ParseResponse(env.codec, env.classify,
                    ResponseJson(MessageJson(st.text, st.reasoning, st.tools), st.finish.value, UsageOf(st)))
  }

  // -- the reference: a trace read call by call ------------------------------------------------

  function ChoiceIn(v: Json): Option<Json> {
    var choices := Choices(v);
    if choices.Some? && |choices.value| == 1 then Some(choices.value[0]) else None
  }

  function EventCalls(v: Json): seq<Json> {
    if ChoiceIn(v).Some? then CallsIn(ChoiceIn(v).value) else []
  }

  function EventText(v: Json, key: string): string {
    if ChoiceIn(v).Some? then TextIn(DeltaOf(ChoiceIn(v).value), key) else ""
  }

  /** All tool-call fragments of the trace, in order. */
  function AllCalls(es: seq<Json>): seq<Json>
    decreases |es|
  {
    if es == [] then [] else AllCalls(es[..|es| - 1]) + EventCalls(es[|es| - 1])
  }

  /** All text under `key`, in order. */
  function AllText(es: seq<Json>, key: string): string
    decreases |es|
  {
    if es == [] then "" else AllText(es[..|es| - 1], key) + EventText(es[|es| - 1], key)
  }

  /** The first response id. */
  function ResponseId(es: seq<Json>): Option<string>
    decreases |es|
  {
    if es == [] then None
    else
      var past := ResponseId(es[..|es| - 1]);
      if past.Some? then past else StrOf(es[|es| - 1], "id")
  }

  function FinishIn(v: Json): Option<string> {
    if ChoiceIn(v).Some? then AsStr(GetSome(ChoiceIn(v).value, "finish_reason")) else None
  }

  function FinishOf(es: seq<Json>): Option<string>
    decreases |es|
  {
    if es == [] then None
    else
      var past := FinishOf(es[..|es| - 1]);
      if FinishIn(es[|es| - 1]).Some? then FinishIn(es[|es| - 1]) else past
  }

  /** How many calls the fragments declare. */
  function Count(cs: seq<Json>): nat
    decreases |cs|
  {
    if cs == [] then 0
    else
      var past := Count(cs[..|cs| - 1]);
      if IndexOf(cs[|cs| - 1]) == Some(past) then past + 1 else past
  }

  function IdFor(cs: seq<Json>, i: nat): Option<string>
    decreases |cs|
  {
    if cs == [] then None
    else
      var past := IdFor(cs[..|cs| - 1], i);
      if past.None? && IndexOf(cs[|cs| - 1]) == Some(i) then StrOf(cs[|cs| - 1], "id") else past
  }

  /** The name or the arguments of call `i`, put together from its own fragments. */
  function StringFor(cs: seq<Json>, i: nat, key: string): string
    decreases |cs|
  {
    if cs == [] then ""
    else
      var past := StringFor(cs[..|cs| - 1], i, key);
      if IndexOf(cs[|cs| - 1]) == Some(i) then past + TextIn(CallFunction(cs[|cs| - 1]), key) else past
  }

  function ToolFor(cs: seq<Json>, i: nat): Tool {
    Tool(IdFor(cs, i), StringFor(cs, i, "name"), StringFor(cs, i, "arguments"))
  }

  function ToolsFor(cs: seq<Json>): seq<Tool> {
    seq(Count(cs), i requires 0 <= i < Count(cs) => ToolFor(cs, i))
  }

  /** The fragment is allowed after the fragments `past`. */
  predicate CallAllowed(env: Env, past: seq<Json>, call: Json) {
    var i, id := IndexOf(call), StrOf(call, "id");
    && i.Some? && i.value <= Count(past) && (i.value == Count(past) ==> Count(past) < env.maxItems)
    && WellTyped(call)
    && (id.Some? ==> && (forall j :: 0 <= j < Count(past) && j != i.value ==> IdFor(past, j) != id)
                     && (IdFor(past, i.value).Some? ==> IdFor(past, i.value) == id))
  }

  predicate CallsAllowed(env: Env, past: seq<Json>, calls: seq<Json>)
    decreases |calls|
  {
    calls == [] || (CallAllowed(env, past, calls[0]) && CallsAllowed(env, past + [calls[0]], calls[1..]))
  }

  function CallsCost(past: seq<Json>, calls: seq<Json>): nat
    decreases |calls|
  {
    if calls == [] then 0
    else
      var i := IndexOf(calls[0]);
      CallCost(ToolFor(past, if i.Some? then i.value else 0), calls[0]) + CallsCost(past + [calls[0]], calls[1..])
  }

  datatype Ledger = Ledger(usage: Fields, hasUsage: bool, bytes: nat)

  function EventCost(past: seq<Json>, v: Json): nat {
    (if ResponseId(past).None? then |TextIn(v, "id")| else 0)
    + |EventText(v, "content")| + |EventText(v, "reasoning_content")|
    + CallsCost(AllCalls(past), EventCalls(v))
  }

  function AccountsNext(env: Env, l: Ledger, past: seq<Json>, v: Json): Option<Ledger> {
    var charged := l.bytes + EventCost(past, v);
    var update := GetSome(v, "usage");
    if update.None? then Some(l.(bytes := charged))
    else
      var merged := MergeUsage(l.usage, update.value);
      if merged.Err? then None
      else Some(Ledger(merged.value, true, charged + Growth(env.codec, l.usage, merged.value)))
  }

  function Accounts(env: Env, es: seq<Json>): Option<Ledger>
    decreases |es|
  {
    if es == [] then Some(Ledger(map[], false, 0))
    else
      var past := Accounts(env, es[..|es| - 1]);
      if past.None? then None else AccountsNext(env, past.value, es[..|es| - 1], es[|es| - 1])
  }

  function Expected(env: Env, es: seq<Json>): State {
    var l := Accounts(env, es);
    var ledger := if l.Some? then l.value else Ledger(map[], false, 0);
    State(ResponseId(es), AllText(es, "content"), AllText(es, "reasoning_content"), ToolsFor(AllCalls(es)),
          FinishOf(es), ledger.usage, ledger.hasUsage, ledger.bytes)
  }

  predicate Affordable(env: Env, es: seq<Json>) {
    Accounts(env, es).Some? && Accounts(env, es).value.bytes <= env.maxOutput
  }

  /** The deltas of one choice fit the queue. */
  predicate QueueHolds(env: Env, v: Json) {
    EventCalls(v) == [] || |EventCalls(v)| + (if EventText(v, "content") == "" then 0 else 1) <= env.maxPending
  }

  /** What the protocol allows next, read off the trace alone. */
  predicate Allowed(env: Env, past: seq<Json>, v: Json) {
    && GetSome(v, "error").None?
    && (Get(v, "id").Some? ==> StrOf(v, "id").Some? && (ResponseId(past).Some? ==> ResponseId(past) == StrOf(v, "id")))
    && Choices(v).Some? && |Choices(v).value| <= 1
    && (ChoiceIn(v).Some? ==> FinishOf(past).None? && GoodChoice(ChoiceIn(v).value))
    && CallsAllowed(env, AllCalls(past), EventCalls(v)) && QueueHolds(env, v)
  }

  predicate Legal(env: Env, es: seq<Json>)
    decreases |es|
  {
    es == [] ||
    (var past := es[..|es| - 1];
     Legal(env, past) && Allowed(env, past, es[|es| - 1]) && Affordable(env, es))
  }

  /** The machine over a trace: the state reached and every delta delivered. */
  function RunTrace(env: Env, es: seq<Json>): Reaction
    decreases |es|
  {
    if es == [] then Ok((Initial, []))
    else
      var past :- RunTrace(env, es[..|es| - 1]);
      var next :- Step(env, past.0, es[|es| - 1]);
      Ok((next.0, past.1 + next.1))
  }
}
