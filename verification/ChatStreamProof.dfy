/** The Chat assembler accepts exactly the legal traces and keeps what each says, call by call. */
module ChatStreamProof {
  import opened Wrappers
  import opened Sequences
  import opened Json
  import opened Model
  import opened StreamCommon
  import opened ChatStream

  const NoTool := Tool(None, "", "")

  // -- fragments --------------------------------------------------------------------------------

  lemma UnfoldCall(cs: seq<Json>, c: Json, i: nat)
    ensures var all := cs + [c];
            && Count(all) == (if IndexOf(c) == Some(Count(cs)) then Count(cs) + 1 else Count(cs))
            && ToolFor(all, i) == (if IndexOf(c) == Some(i) then Extended(ToolFor(cs, i), c) else ToolFor(cs, i))
  {
    var all := cs + [c];
    assert all[..|all| - 1] == cs && all[|all| - 1] == c;
  }

  /** No fragment belongs to a call that is not declared yet. */
  ghost predicate Tidy(cs: seq<Json>) {
    forall i: nat :: i >= Count(cs) ==> ToolFor(cs, i) == NoTool
  }

  lemma AllowedStaysTidy(env: Env, cs: seq<Json>, c: Json)
    requires Tidy(cs) && CallAllowed(env, cs, c)
    ensures Tidy(cs + [c])
  {
    forall i: nat | i >= Count(cs + [c]) ensures ToolFor(cs + [c], i) == NoTool {
      UnfoldCall(cs, c, i);
    }
  }

  lemma DeclaredTools(env: Env, cs: seq<Json>, c: Json)
    requires Tidy(cs)
    ensures var d := Declared(env, ToolsFor(cs), c);
            var i := IndexOf(c);
            && (d.Some? <==> i.Some? && i.value <= Count(cs) && (i.value == Count(cs) ==> Count(cs) < env.maxItems))
            && (d.Some? ==> && i.value < |d.value| && |d.value| == Count(cs + [c])
                            && forall j: nat :: j < |d.value| ==> d.value[j] == ToolFor(cs, j))
  {
    UnfoldCall(cs, c, 0);
  }

  lemma ToolsExtended(env: Env, cs: seq<Json>, c: Json)
    requires Tidy(cs) && Declared(env, ToolsFor(cs), c).Some?
    ensures var tools, i := Declared(env, ToolsFor(cs), c).value, IndexOf(c).value;
            i < |tools| && tools[i := Extended(tools[i], c)] == ToolsFor(cs + [c])
  {
    DeclaredTools(env, cs, c);
    var tools, i := Declared(env, ToolsFor(cs), c).value, IndexOf(c).value;
    var extended := tools[i := Extended(tools[i], c)];
    forall j: nat | j < |tools| ensures extended[j] == ToolsFor(cs + [c])[j] {
      UnfoldCall(cs, c, j);
    }
  }

  /** The identity conditions read off the fragments. */
  predicate IdFits(cs: seq<Json>, i: nat, id: Option<string>) {
    id.Some? ==> && (forall j :: 0 <= j < Count(cs) && j != i ==> IdFor(cs, j) != id)
                 && (IdFor(cs, i).Some? ==> IdFor(cs, i) == id)
  }

  lemma IdsAgree(env: Env, cs: seq<Json>, c: Json, tools: seq<Tool>, i: nat, id: Option<string>)
    requires Tidy(cs) && Declared(env, ToolsFor(cs), c) == Some(tools) && IndexOf(c) == Some(i)
    ensures i < |tools| && tools[i] == ToolFor(cs, i)
    ensures IdFits(cs, i, id) <==> !IdElsewhere(tools, i, id) && !IdChanged(tools[i], id)
  {
    DeclaredTools(env, cs, c);
    assert tools[i] == ToolFor(cs, i);
    if IdElsewhere(tools, i, id) {
      var j: nat :| j < |tools| && j != i && tools[j].id == id;
      assert tools[j] == ToolFor(cs, j);
      assert j < Count(cs);
      assert IdFor(cs, j) == id;
    }
    if !IdElsewhere(tools, i, id) && id.Some? {
      forall j: nat | j < Count(cs) && j != i ensures IdFor(cs, j) != id {
        assert tools[j] == ToolFor(cs, j);
      }
    }
  }

  lemma {:induction false} CallAgrees(env: Env, cs: seq<Json>, c: Json, st: State)
    requires Tidy(cs) && st.tools == ToolsFor(cs)
    ensures var r := TakeCall(env, st, c);
            var cost := CallCost(ToolFor(cs, if IndexOf(c).Some? then IndexOf(c).value else 0), c);
            && (r.Ok? <==> CallAllowed(env, cs, c) && st.bytes + cost <= env.maxOutput)
            && (r.Ok? ==> r.value == st.(tools := ToolsFor(cs + [c]), bytes := st.bytes + cost))
  {
    DeclaredTools(env, cs, c);
    if Declared(env, st.tools, c).Some? {
      var tools, i, id := Declared(env, st.tools, c).value, IndexOf(c).value, StrOf(c, "id");
      ToolsExtended(env, cs, c);
      IdsAgree(env, cs, c, tools, i, id);
      assert CallAllowed(env, cs, c) <==> WellTyped(c) && IdFits(cs, i, id);
    }
  }

  function CallDeltas(calls: seq<Json>): seq<StreamDelta> {
    if calls == [] then [] else [CallDelta(calls[0])] + CallDeltas(calls[1..])
  }

  /** The state once the fragments are in. */
  function Called(st: State, cs: seq<Json>, bytes: nat): State {
    State(st.id, st.text, st.reasoning, ToolsFor(cs), st.finish, st.usage, st.hasUsage, bytes)
  }

  /** What taking the fragments must come to. */
  ghost predicate CallsTaken(env: Env, cs: seq<Json>, calls: seq<Json>, st: State, out: seq<StreamDelta>, r: Reaction) {
    var bytes := st.bytes + CallsCost(cs, calls);
    && (r.Ok? <==> CallsAllowed(env, cs, calls) && bytes <= env.maxOutput && (calls == [] || |out| + |calls| <= env.maxPending))
    && (r.Ok? ==> r.value == (Called(st, cs + calls, bytes), out + CallDeltas(calls)) && Tidy(cs + calls))
  }

  lemma CallsUnfold(env: Env, cs: seq<Json>, c: Json, rest: seq<Json>)
    requires IndexOf(c).Some?
    ensures CallsCost(cs, [c] + rest) == CallCost(ToolFor(cs, IndexOf(c).value), c) + CallsCost(cs + [c], rest)
    ensures CallsAllowed(env, cs, [c] + rest) <==> CallAllowed(env, cs, c) && CallsAllowed(env, cs + [c], rest)
    ensures CallDeltas([c] + rest) == [CallDelta(c)] + CallDeltas(rest)
  {
    assert ([c] + rest)[0] == c && ([c] + rest)[1..] == rest;
  }

  lemma {:induction false} CallsOnward(env: Env, cs: seq<Json>, c: Json, rest: seq<Json>, st: State, next: State,
                                       out: seq<StreamDelta>, r: Reaction)
    requires CallAllowed(env, cs, c) && next == Called(st, cs + [c], st.bytes + CallCost(ToolFor(cs, IndexOf(c).value), c))
    requires CallsTaken(env, cs + [c], rest, next, out + [CallDelta(c)], r)
    ensures CallsTaken(env, cs, [c] + rest, st, out, if |out| + 1 > env.maxPending then Err(Undecodable) else r)
  {
    CallsUnfold(env, cs, c, rest);
    Associate(cs, [c], rest);
    Associate(out, [CallDelta(c)], CallDeltas(rest));
  }

  lemma {:induction false} CallsAgree(env: Env, cs: seq<Json>, calls: seq<Json>, st: State, out: seq<StreamDelta>)
    requires Tidy(cs) && st.tools == ToolsFor(cs) && st.bytes <= env.maxOutput
    ensures CallsTaken(env, cs, calls, st, out, TakeCalls(env, st, calls, out))
    decreases |calls|
  {
    if calls == [] {
      assert cs + calls == cs && out + CallDeltas(calls) == out;
    } else {
      var c, rest := calls[0], calls[1..];
      CallAgrees(env, cs, c, st);
      var taken := TakeCall(env, st, c);
      if taken.Ok? {
        AllowedStaysTidy(env, cs, c);
        var more := out + [CallDelta(c)];
        CallsAgree(env, cs + [c], rest, taken.value, more);
        CallsOnward(env, cs, c, rest, st, taken.value, out, TakeCalls(env, taken.value, rest, more));
        assert [c] + rest == calls;
      }
    }
  }

  // -- events -----------------------------------------------------------------------------------

  lemma Unfold(env: Env, past: seq<Json>, v: Json)
    ensures var es := past + [v];
            && AllCalls(es) == AllCalls(past) + EventCalls(v)
            && AllText(es, "content") == AllText(past, "content") + EventText(v, "content")
            && AllText(es, "reasoning_content") == AllText(past, "reasoning_content") + EventText(v, "reasoning_content")
            && ResponseId(es) == (if ResponseId(past).Some? then ResponseId(past) else StrOf(v, "id"))
            && FinishOf(es) == (if FinishIn(v).Some? then FinishIn(v) else FinishOf(past))
  {
    var es := past + [v];
    assert es[..|es| - 1] == past && es[|es| - 1] == v;
  }

  lemma UnfoldAccounts(env: Env, past: seq<Json>, v: Json)
    requires Accounts(env, past).Some?
    ensures Accounts(env, past + [v]) == AccountsNext(env, Accounts(env, past).value, past, v)
  {
    var es := past + [v];
    assert es[..|es| - 1] == past && es[|es| - 1] == v;
  }

  function TextDeltas(text: string): seq<StreamDelta> {
    if text == "" then [] else [TextDelta(text)]
  }

  function ChoiceDeltas(text: string, calls: seq<Json>): seq<StreamDelta> {
    TextDeltas(text) + CallDeltas(calls)
  }

  function Spoken(st: State, text: string, reasoning: string): State {
    st.(text := st.text + text, reasoning := st.reasoning + reasoning)
  }

  /** The texts of a choice, then its fragments. */
  function TextThenCalls(env: Env, st: State, text: string, reasoning: string, calls: seq<Json>): Reaction {
    var bytes := st.bytes + (|text| + |reasoning|);
    if bytes > env.maxOutput then Err(Undecodable)
    else TakeCalls(env, SpokenAndPaid(st, text, reasoning), calls, TextDeltas(text))
  }

  function SpokenAndPaid(st: State, text: string, reasoning: string): State {
    Spoken(st, text, reasoning).(bytes := st.bytes + (|text| + |reasoning|))
  }

  function Closed(st: State, finish: Option<string>): State {
    if finish.Some? then st.(finish := finish) else st
  }

  /** A choice is its texts and fragments, and then the finish reason. */
  lemma {:induction false} ChoiceParts(env: Env, st: State, choice: Json)
    requires st.finish.None? && GoodChoice(choice)
    ensures var delta := DeltaOf(choice);
            var r := TextThenCalls(env, st, TextIn(delta, "content"), TextIn(delta, "reasoning_content"), CallsIn(choice));
            TakeChoice(env, st, choice) ==
            if r.Err? then Err(r.error)
            else Ok((Closed(r.value.0, AsStr(GetSome(choice, "finish_reason"))), r.value.1))
  {
  }

  function EventChoiceDeltas(v: Json): seq<StreamDelta> {
    if ChoiceIn(v).None? then [] else ChoiceDeltas(EventText(v, "content"), EventCalls(v))
  }

  predicate ChoiceAllowed(env: Env, finish: Option<string>, cs: seq<Json>, v: Json) {
    && Choices(v).Some? && |Choices(v).value| <= 1
    && (ChoiceIn(v).Some? ==> finish.None? && GoodChoice(ChoiceIn(v).value))
    && CallsAllowed(env, cs, EventCalls(v)) && QueueHolds(env, v)
  }

  function Chosen(env: Env, st: State, v: Json): Reaction {
    var choices := Choices(v);
    if choices.None? || |choices.value| > 1 then Err(Undecodable)
    else if choices.value == [] then Ok((st, [])) else TakeChoice(env, st, choices.value[0])
  }

  function Said(st: State, v: Json, cs: seq<Json>, bytes: nat): State {
    State(st.id, st.text + EventText(v, "content"), st.reasoning + EventText(v, "reasoning_content"),
          ToolsFor(cs + EventCalls(v)), if FinishIn(v).Some? then FinishIn(v) else st.finish,
          st.usage, st.hasUsage, bytes)
  }

  function ChoiceCost(cs: seq<Json>, v: Json): nat {
    |EventText(v, "content")| + |EventText(v, "reasoning_content")| + CallsCost(cs, EventCalls(v))
  }

  lemma NoChoice(env: Env, cs: seq<Json>, v: Json, st: State)
    requires ChoiceIn(v).None? && st.tools == ToolsFor(cs)
    ensures Said(st, v, cs, st.bytes) == st && ChoiceCost(cs, v) == 0 && cs + EventCalls(v) == cs
  {
    assert cs + [] == cs && st.text + "" == st.text && st.reasoning + "" == st.reasoning;
  }

  /** Once its fragments are taken, a choice has said what the event says. */
  lemma {:induction false} SaidInParts(env: Env, cs: seq<Json>, v: Json, st: State, spoken: State, r: Reaction)
    requires st.finish.None? && ChoiceIn(v).Some? && r.Ok?
    requires spoken == SpokenAndPaid(st, EventText(v, "content"), EventText(v, "reasoning_content"))
    requires CallsTaken(env, cs, EventCalls(v), spoken, TextDeltas(EventText(v, "content")), r)
    ensures Closed(r.value.0, FinishIn(v)) == Said(st, v, cs, st.bytes + ChoiceCost(cs, v))
    ensures r.value.1 == EventChoiceDeltas(v)
  {
  }

  lemma {:induction false} OneChoiceAgrees(env: Env, cs: seq<Json>, v: Json, st: State)
    requires Tidy(cs) && st.tools == ToolsFor(cs) && st.bytes <= env.maxOutput
    requires ChoiceIn(v).Some? && st.finish.None? && GoodChoice(ChoiceIn(v).value)
    ensures var r := TakeChoice(env, st, ChoiceIn(v).value);
            var bytes := st.bytes + ChoiceCost(cs, v);
            && (r.Ok? <==> CallsAllowed(env, cs, EventCalls(v)) && QueueHolds(env, v) && bytes <= env.maxOutput)
            && (r.Ok? ==> r.value == (Said(st, v, cs, bytes), EventChoiceDeltas(v)) && Tidy(cs + EventCalls(v)))
  {
    var text, reasoning, calls := EventText(v, "content"), EventText(v, "reasoning_content"), EventCalls(v);
    ChoiceParts(env, st, ChoiceIn(v).value);
    var spoken := SpokenAndPaid(st, text, reasoning);
    if spoken.bytes <= env.maxOutput {
      CallsAgree(env, cs, calls, spoken, TextDeltas(text));
      var r := TakeCalls(env, spoken, calls, TextDeltas(text));
      if r.Ok? {
        SaidInParts(env, cs, v, st, spoken, r);
      }
    }
  }

  lemma {:induction false} ChosenAgrees(env: Env, cs: seq<Json>, v: Json, st: State)
    requires Tidy(cs) && st.tools == ToolsFor(cs) && st.bytes <= env.maxOutput
    ensures var r := Chosen(env, st, v);
            var bytes := st.bytes + ChoiceCost(cs, v);
            && (r.Ok? <==> ChoiceAllowed(env, st.finish, cs, v) && bytes <= env.maxOutput)
            && (r.Ok? ==> r.value == (Said(st, v, cs, bytes), EventChoiceDeltas(v)) && Tidy(cs + EventCalls(v)))
  {
    if ChoiceIn(v).None? {
      NoChoice(env, cs, v, st);
    } else if st.finish.None? && GoodChoice(ChoiceIn(v).value) {
      OneChoiceAgrees(env, cs, v, st);
    } else {
      assert TakeChoice(env, st, ChoiceIn(v).value).Err?;
    }
  }

  predicate IdAllowed(known: Option<string>, v: Json) {
    Get(v, "id").Some? ==> StrOf(v, "id").Some? && (known.Some? ==> known == StrOf(v, "id"))
  }

  function IdCost(known: Option<string>, v: Json): nat {
    if known.None? then |TextIn(v, "id")| else 0
  }

  lemma IdTaken(env: Env, st: State, v: Json)
    requires st.bytes <= env.maxOutput
    ensures var r := TakeId(env, st, v);
            var bytes := st.bytes + IdCost(st.id, v);
            && (r.Ok? <==> IdAllowed(st.id, v) && bytes <= env.maxOutput)
            && (r.Ok? ==> r.value == st.(id := if st.id.Some? then st.id else StrOf(v, "id"), bytes := bytes))
  {
  }

  lemma StepParts(env: Env, st: State, v: Json)
    requires GetSome(v, "error").None? && TakeId(env, st, v).Ok?
    ensures var chosen := Chosen(env, TakeId(env, st, v).value, v);
            Step(env, st, v) == if chosen.Err? then Err(chosen.error) else TakeUsage(env, chosen.value.0, v, chosen.value.1)
  {
  }

  ghost predicate Sound(env: Env, es: seq<Json>) {
    Affordable(env, es) && Tidy(AllCalls(es))
  }

  function UsageDeltas(st: State, v: Json): seq<StreamDelta> {
    if GetSome(v, "usage").None? then [] else [Usage(Obj(st.usage))]
  }

  function EventDeltas(env: Env, past: seq<Json>, v: Json): seq<StreamDelta> {
    EventChoiceDeltas(v) + UsageDeltas(Expected(env, past + [v]), v)
  }

  /** The state of a trace before its last event's usage is merged. */
  predicate Unpaid(env: Env, past: seq<Json>, v: Json, st: State) {
    var was := Expected(env, past);
    st == Expected(env, past + [v]).(usage := was.usage, hasUsage := was.hasUsage, bytes := was.bytes + EventCost(past, v))
  }

  lemma {:induction false} UsagePaid(env: Env, past: seq<Json>, v: Json, st: State, out: seq<StreamDelta>, l: Ledger)
    requires l.usage == st.usage && l.hasUsage == st.hasUsage && st.bytes == l.bytes + EventCost(past, v) <= env.maxOutput
    ensures var r, next := TakeUsage(env, st, v, out), AccountsNext(env, l, past, v);
            && (r.Ok? <==> next.Some? && next.value.bytes <= env.maxOutput)
            && (r.Ok? ==> && r.value.0 == Paid(st, next.value) && r.value.1 == out + UsageDeltas(r.value.0, v))
  {
    if GetSome(v, "usage").None? {
      NoneLast(out);
    } else {
      var merged := MergeUsage(l.usage, GetSome(v, "usage").value);
      assert merged.Ok? ==> Growth(env.codec, l.usage, merged.value) >= 0;
    }
  }

  function Paid(st: State, l: Ledger): State {
    st.(usage := l.usage, hasUsage := l.hasUsage, bytes := l.bytes)
  }

  lemma UsageAgrees(env: Env, past: seq<Json>, v: Json, st: State, out: seq<StreamDelta>)
    requires Accounts(env, past).Some? && Unpaid(env, past, v, st) && st.bytes <= env.maxOutput
    ensures var r := TakeUsage(env, st, v, out);
            && (r.Ok? <==> Affordable(env, past + [v]))
            && (r.Ok? ==> r.value == (Expected(env, past + [v]), out + UsageDeltas(Expected(env, past + [v]), v)))
  {
    UnfoldAccounts(env, past, v);
    UsagePaid(env, past, v, st, out, Accounts(env, past).value);
  }

  /** What a choice said, on the state that took the response id, is the trace's, but for the usage. */
  lemma {:induction false} SaidIsUnpaid(env: Env, past: seq<Json>, v: Json, named: State)
    requires var st := Expected(env, past);
             named == st.(id := if st.id.Some? then st.id else StrOf(v, "id"), bytes := st.bytes + IdCost(st.id, v))
    ensures Unpaid(env, past, v, Said(named, v, AllCalls(past), named.bytes + ChoiceCost(AllCalls(past), v)))
  {
    Unfold(env, past, v);
    var said := Said(named, v, AllCalls(past), named.bytes + ChoiceCost(AllCalls(past), v));
    var next := Expected(env, past + [v]);
    assert said.id == next.id && said.text == next.text && said.reasoning == next.reasoning;
    assert said.tools == next.tools && said.finish == next.finish;
  }

  /** The choice of an event, once its response id is in. */
  lemma {:induction false} ChoiceAgrees(env: Env, past: seq<Json>, v: Json, named: State)
    requires Sound(env, past) && GetSome(v, "error").None?
    requires TakeId(env, Expected(env, past), v) == Ok(named)
    ensures var r := Chosen(env, named, v);
            && (r.Ok? <==> Allowed(env, past, v) && named.bytes + ChoiceCost(AllCalls(past), v) <= env.maxOutput)
            && (r.Ok? ==> && Unpaid(env, past, v, r.value.0) && r.value.0.bytes <= env.maxOutput
                          && r.value.1 == EventChoiceDeltas(v) && Tidy(AllCalls(past + [v])))
  {
    Unfold(env, past, v);
    IdTaken(env, Expected(env, past), v);
    ChosenAgrees(env, AllCalls(past), v, named);
    SaidIsUnpaid(env, past, v, named);
  }

  /** One event on the state its past accounts for. */
  lemma {:induction false} EventAgrees(env: Env, past: seq<Json>, v: Json)
    requires Sound(env, past)
    ensures var r := Step(env, Expected(env, past), v);
            && (r.Ok? <==> Allowed(env, past, v) && Affordable(env, past + [v]))
            && (r.Ok? ==> r.value == (Expected(env, past + [v]), EventDeltas(env, past, v)) && Sound(env, past + [v]))
  {
    var st := Expected(env, past);
    UnfoldAccounts(env, past, v);
    if GetSome(v, "error").None? {
      IdTaken(env, st, v);
      var named := TakeId(env, st, v);
      if named.Ok? {
        StepParts(env, st, v);
        ChoiceAgrees(env, past, v, named.value);
        var chosen := Chosen(env, named.value, v);
        if chosen.Ok? {
          UsageAgrees(env, past, v, chosen.value.0, chosen.value.1);
        }
      }
    }
  }

  /** All deltas of a trace, event by event. */
  function AllDeltas(env: Env, es: seq<Json>): seq<StreamDelta>
    decreases |es|
  {
    if es == [] then [] else AllDeltas(env, es[..|es| - 1]) + EventDeltas(env, es[..|es| - 1], es[|es| - 1])
  }

  /**
   The assembler accepts exactly the legal traces; the state it reaches is each part of the
   message read off the trace on its own, within the output limit.
   */
  lemma {:induction false} TraceAgrees(env: Env, es: seq<Json>)
    ensures RunTrace(env, es).Ok? <==> Legal(env, es)
    ensures Legal(env, es) ==> RunTrace(env, es) == Ok((Expected(env, es), AllDeltas(env, es))) && Sound(env, es)
    ensures Legal(env, es) ==> Expected(env, es).bytes <= env.maxOutput
    decreases |es|
  {
    if es == [] {
      assert ToolsFor(AllCalls(es)) == [];
    } else {
      var past, v := es[..|es| - 1], es[|es| - 1];
      assert past + [v] == es;
      TraceAgrees(env, past);
      if Legal(env, past) {
        EventAgrees(env, past, v);
      }
    }
  }

  // -- what the deltas say ------------------------------------------------------------------

  /** A text the consumer of the deltas can put together. */
  datatype Slot = TextSlot | NameSlot(i: nat) | ArgumentsSlot(i: nat)

  function OrEmpty(s: Option<string>): string {
    if s.Some? then s.value else ""
  }

  function Piece(d: StreamDelta, slot: Slot): string {
    match slot
    case TextSlot => if d.TextDelta? then d.text else ""
    case NameSlot(i) => if d.ToolCallDelta? && d.callIndex == i then OrEmpty(d.name) else ""
    case ArgumentsSlot(i) => if d.ToolCallDelta? && d.callIndex == i then OrEmpty(d.arguments) else ""
  }

  function Joined(ds: seq<StreamDelta>, slot: Slot): string
    decreases |ds|
  {
    if ds == [] then "" else Piece(ds[0], slot) + Joined(ds[1..], slot)
  }

  lemma {:induction false} JoinedConcat(a: seq<StreamDelta>, b: seq<StreamDelta>, slot: Slot)
    ensures Joined(a + b, slot) == Joined(a, slot) + Joined(b, slot)
    decreases |a|
  {
    if a == [] {
      assert a + b == b;
    } else {
      assert (a + b)[0] == a[0] && (a + b)[1..] == a[1..] + b;
      JoinedConcat(a[1..], b, slot);
    }
  }

  lemma JoinedOne(d: StreamDelta, slot: Slot)
    ensures Joined([d], slot) == Piece(d, slot)
  {
    assert [d][1..] == [];
  }

  /** What the state of a trace holds in a slot. */
  function Held(text: string, cs: seq<Json>, slot: Slot): string {
    match slot
    case TextSlot => text
    case NameSlot(i) => ToolFor(cs, i).name
    case ArgumentsSlot(i) => ToolFor(cs, i).arguments
  }

  lemma CallDeltaTells(cs: seq<Json>, c: Json, text: string, slot: Slot)
    requires IndexOf(c).Some?
    ensures Held(text, cs + [c], slot) == Held(text, cs, slot) + Joined([CallDelta(c)], slot)
  {
    JoinedOne(CallDelta(c), slot);
    if !slot.TextSlot? {
      UnfoldCall(cs, c, slot.i);
      var held := Held(text, cs, slot);
      assert held + "" == held;
    }
  }

  lemma {:induction false} CallDeltasTell(env: Env, cs: seq<Json>, calls: seq<Json>, text: string, slot: Slot)
    requires CallsAllowed(env, cs, calls)
    ensures Held(text, cs + calls, slot) == Held(text, cs, slot) + Joined(CallDeltas(calls), slot)
    decreases |calls|
  {
    if calls == [] {
      assert cs + calls == cs;
    } else {
      var c, rest := calls[0], calls[1..];
      CallDeltasTell(env, cs + [c], rest, text, slot);
      assert [c] + rest == calls;
      Associate(cs, [c], rest);
      CallDeltaTells(cs, c, text, slot);
      JoinedConcat([CallDelta(c)], CallDeltas(rest), slot);
      Associate(Held(text, cs, slot), Joined([CallDelta(c)], slot), Joined(CallDeltas(rest), slot));
    }
  }

  lemma TextDeltaTells(before: string, said: string, cs: seq<Json>, slot: Slot)
    ensures Held(before + said, cs, slot) == Held(before, cs, slot) + Joined(TextDeltas(said), slot)
  {
    var held := Held(before, cs, slot);
    assert held + "" == held && before + "" == before;
    if said != "" {
      JoinedOne(TextDelta(said), slot);
    }
  }

  lemma {:induction false} SpokenDeltasTell(env: Env, cs: seq<Json>, said: string, calls: seq<Json>, before: string, slot: Slot)
    requires CallsAllowed(env, cs, calls)
    ensures Held(before + said, cs + calls, slot) == Held(before, cs, slot) + Joined(ChoiceDeltas(said, calls), slot)
  {
    TextDeltaTells(before, said, cs, slot);
    CallDeltasTell(env, cs, calls, before + said, slot);
    JoinedConcat(TextDeltas(said), CallDeltas(calls), slot);
  }

  lemma ChoiceDeltasTell(env: Env, cs: seq<Json>, v: Json, before: string, slot: Slot)
    requires CallsAllowed(env, cs, EventCalls(v))
    ensures Held(before + EventText(v, "content"), cs + EventCalls(v), slot) ==
            Held(before, cs, slot) + Joined(EventChoiceDeltas(v), slot)
  {
    if ChoiceIn(v).Some? {
      SpokenDeltasTell(env, cs, EventText(v, "content"), EventCalls(v), before, slot);
    } else {
      assert before + "" == before && cs + [] == cs;
    }
  }

  lemma UsageDeltasSilent(st: State, v: Json, slot: Slot)
    ensures Joined(UsageDeltas(st, v), slot) == ""
  {
    JoinedOne(Usage(Obj(st.usage)), slot);
  }

  lemma {:induction false} EventDeltasTell(env: Env, past: seq<Json>, v: Json, slot: Slot)
    requires Allowed(env, past, v)
    ensures Held(AllText(past + [v], "content"), AllCalls(past + [v]), slot) ==
            Held(AllText(past, "content"), AllCalls(past), slot) + Joined(EventDeltas(env, past, v), slot)
  {
    Unfold(env, past, v);
    ChoiceDeltasTell(env, AllCalls(past), v, AllText(past, "content"), slot);
    JoinedConcat(EventChoiceDeltas(v), UsageDeltas(Expected(env, past + [v]), v), slot);
    UsageDeltasSilent(Expected(env, past + [v]), v, slot);
  }

  /**
   The text deltas of a trace put together are its text, and the name and argument deltas with
   one call index are that call's name and arguments.
   */
  lemma {:induction false} DeltasTell(env: Env, es: seq<Json>, slot: Slot)
    requires Legal(env, es)
    ensures Joined(AllDeltas(env, es), slot) == Held(AllText(es, "content"), AllCalls(es), slot)
    decreases |es|
  {
    if es != [] {
      var past, v := es[..|es| - 1], es[|es| - 1];
      assert past + [v] == es;
      DeltasTell(env, past, slot);
      EventDeltasTell(env, past, v, slot);
      JoinedConcat(AllDeltas(env, past), EventDeltas(env, past, v), slot);
    }
  }
}
