/** What the Chat assembler keeps in memory is covered by what it charged against the output limit. */
module ChatRetained {
  import opened Wrappers
  import opened Json
  import opened Model
  import opened StreamCommon
  import opened ChatStream
  import opened ChatStreamProof

  function ToolWeight(tool: Tool): nat {
    |OrEmpty(tool.id)| + |tool.name| + |tool.arguments|
  }

  function ToolsWeight(tools: seq<Tool>): nat {
    if tools == [] then 0 else ToolWeight(tools[0]) + ToolsWeight(tools[1..])
  }

  /** Bytes of text held, and of the usage object beyond an empty one. */
  function Retained(env: Env, st: State): int {
    |OrEmpty(st.id)| + |st.text| + |st.reasoning| + ToolsWeight(st.tools)
    + Size(env.codec, Obj(st.usage)) - Size(env.codec, Obj(map[]))
  }

  predicate Covered(env: Env, st: State) {
    Retained(env, st) <= st.bytes
  }

  lemma {:induction false} WeightAppend(tools: seq<Tool>, tool: Tool)
    ensures ToolsWeight(tools + [tool]) == ToolsWeight(tools) + ToolWeight(tool)
    decreases |tools|
  {
    if tools != [] {
      assert (tools + [tool])[1..] == tools[1..] + [tool];
      WeightAppend(tools[1..], tool);
    }
  }

  lemma {:induction false} WeightReplace(tools: seq<Tool>, i: nat, tool: Tool)
    requires i < |tools|
    ensures ToolsWeight(tools[i := tool]) == ToolsWeight(tools) - ToolWeight(tools[i]) + ToolWeight(tool)
    decreases |tools|
  {
    if i == 0 {
      assert tools[i := tool][1..] == tools[1..];
    } else {
      assert tools[i := tool][1..] == tools[1..][i - 1 := tool];
      WeightReplace(tools[1..], i - 1, tool);
    }
  }

  lemma CallCovered(env: Env, st: State, call: Json)
    ensures TakeCall(env, st, call).Ok? && Covered(env, st) ==> Covered(env, TakeCall(env, st, call).value)
  {
    var declared := Declared(env, st.tools, call);
    if declared.Some? && TakeCall(env, st, call).Ok? {
      var tools, i := declared.value, IndexOf(call).value;
      WeightAppend(st.tools, Tool(None, "", ""));
      assert ToolsWeight(tools) == ToolsWeight(st.tools);
      WeightReplace(tools, i, Extended(tools[i], call));
      assert ToolWeight(Extended(tools[i], call)) <= ToolWeight(tools[i]) + CallCost(tools[i], call);
    }
  }

  lemma {:induction false} CallsCovered(env: Env, st: State, calls: seq<Json>, out: seq<StreamDelta>)
    ensures TakeCalls(env, st, calls, out).Ok? && Covered(env, st) ==> Covered(env, TakeCalls(env, st, calls, out).value.0)
    decreases |calls|
  {
    if calls != [] {
      CallCovered(env, st, calls[0]);
      var next := TakeCall(env, st, calls[0]);
      if next.Ok? {
        CallsCovered(env, next.value, calls[1..], out + [CallDelta(calls[0])]);
      }
    }
  }

  lemma ChosenCovered(env: Env, st: State, v: Json)
    requires Covered(env, st)
    ensures Chosen(env, st, v).Ok? ==> Covered(env, Chosen(env, st, v).value.0)
  {
    if ChoiceIn(v).Some? && Chosen(env, st, v).Ok? {
      var choice := ChoiceIn(v).value;
      var text, reasoning := TextIn(DeltaOf(choice), "content"), TextIn(DeltaOf(choice), "reasoning_content");
      ChoiceParts(env, st, choice);
      var spoken := SpokenAndPaid(st, text, reasoning);
      assert Covered(env, spoken);
      CallsCovered(env, spoken, CallsIn(choice), TextDeltas(text));
      assert Chosen(env, st, v).value.0 ==
             Closed(TakeCalls(env, spoken, CallsIn(choice), TextDeltas(text)).value.0, AsStr(GetSome(choice, "finish_reason")));
    }
  }

  lemma StepCovered(env: Env, st: State, v: Json)
    requires Covered(env, st)
    ensures Step(env, st, v).Ok? ==> Covered(env, Step(env, st, v).value.0)
  {
    if Step(env, st, v).Ok? {
      StepParts(env, st, v);
      var named := TakeId(env, st, v).value;
      assert Covered(env, named);
      ChosenCovered(env, named, v);
      var chosen := Chosen(env, named, v).value;
      UsageCovered(env, chosen.0, v, chosen.1);
    }
  }

  lemma UsageCovered(env: Env, st: State, v: Json, out: seq<StreamDelta>)
    requires Covered(env, st)
    ensures TakeUsage(env, st, v, out).Ok? ==> Covered(env, TakeUsage(env, st, v, out).value.0)
  {
    if TakeUsage(env, st, v, out).Ok? && GetSome(v, "usage").Some? {
      var merged := MergeUsage(st.usage, GetSome(v, "usage").value).value;
      assert Growth(env.codec, st.usage, merged) >= Size(env.codec, Obj(merged)) - Size(env.codec, Obj(st.usage));
    }
  }

  /** Nothing retained over any run exceeds the output limit. */
  lemma {:induction false} RetainedWithinLimit(env: Env, es: seq<Json>)
    requires RunTrace(env, es).Ok?
    ensures var st := RunTrace(env, es).value.0; Retained(env, st) <= st.bytes <= env.maxOutput
    decreases |es|
  {
    TraceAgrees(env, es);
    if es != [] {
      var past, v := es[..|es| - 1], es[|es| - 1];
      RetainedWithinLimit(env, past);
      StepCovered(env, RunTrace(env, past).value.0, v);
    }
  }
}
