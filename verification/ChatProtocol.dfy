/**
 Which events a Chat stream may bring next, what they tell and what they cost, read off the events
 as they stand in the JSON, names written out; and that the assembler does exactly that.
 */
module ChatProtocol {
  import opened Wrappers
  import opened Sequences
  import opened Json
  import opened Model
  import opened StreamCommon
  import opened ChatStream
  import opened ChatStreamProof
  import opened UsageMerge
  import ChatParse

  // -- an event ----------------------------------------------------------------------------------

  /** The one choice of an event, if it has one. */
  function Choice(v: Json): Option<Json> {
    match Get(v, "choices")
    case Some(Arr(items)) => if |items| == 1 then Some(items[0]) else None
    case _ => None
  }

  function Delta(v: Json): Json {
    match Choice(v)
    case Some(choice) => (match Get(choice, "delta")
                          case Some(delta) => delta
                          case None => Null)
    case None => Null
  }

  function TextSaid(v: Json): string {
    TextIn(Delta(v), "content")
  }

  function ThoughtSaid(v: Json): string {
    TextIn(Delta(v), "reasoning_content")
  }

  /** The call fragments of an event, in order. */
  function Fragments(v: Json): seq<Json> {
    match Get(Delta(v), "tool_calls")
    case Some(Arr(items)) => items
    case _ => []
  }

  /** A member of a fragment's function. */
  function Within(c: Json, key: string): Option<Json> {
    match Get(c, "function")
    case Some(f) => Get(f, key)
    case None => None
  }

  function Words(v: Option<Json>): string {
    match v
    case Some(Str(s)) => s
    case _ => ""
  }

  function ReasonSaid(v: Json): Option<string> {
    match Choice(v)
    case Some(choice) => AsStr(GetSome(choice, "finish_reason"))
    case None => None
  }

  // -- the events before -------------------------------------------------------------------------------

  function AllFragments(es: seq<Json>): seq<Json>
    decreases |es|
  {
    if es == [] then [] else AllFragments(es[..|es| - 1]) + Fragments(es[|es| - 1])
  }

  /** How many calls have begun: a call begins with the fragment that bears the next index. */
  function CallsBegun(cs: seq<Json>): nat {
    if cs == [] then 0
    else
      var early := CallsBegun(cs[..|cs| - 1]);
      if Get(cs[|cs| - 1], "index") == Some(Int(early)) && early <= 0xFFFF_FFFF_FFFF_FFFF then early + 1 else early
  }

  /** The fragment belongs to call `i`. */
  predicate Of(c: Json, i: int) {
    Get(c, "index") == Some(Int(i))
  }

  predicate Identified(cs: seq<Json>, i: int) {
    exists k :: 0 <= k < |cs| && Of(cs[k], i) && StrOf(cs[k], "id").Some?
  }

  predicate Finished(past: seq<Json>) {
    exists j :: 0 <= j < |past| && ReasonSaid(past[j]).Some?
  }

  predicate FinishedAs(es: seq<Json>, reason: Option<string>) {
    exists j :: 0 <= j < |es| && ReasonSaid(es[j]) == reason
  }

  // -- what may come ---------------------------------------------------------------------------------------

  predicate MaybeText(v: Json, key: string) {
    match Get(v, key)
    case None => true
    case Some(Null) => true
    case Some(Str(_)) => true
    case _ => false
  }

  predicate TextIfAny(v: Option<Json>) {
    match v
    case None => true
    case Some(Str(_)) => true
    case _ => false
  }

  /** A choice with the members the protocol gives it. */
  predicate ChoiceFits(choice: Json) {
    && Get(choice, "index") == Some(Int(0)) && MaybeText(choice, "finish_reason")
    && match Get(choice, "delta")
       case Some(Obj(fields)) =>
         var delta := Obj(fields);
         && MaybeText(delta, "content") && MaybeText(delta, "reasoning_content") && "function_call" !in fields
         && ("tool_calls" in fields ==> fields["tool_calls"].Arr?)
       case _ => false
  }

  /** A fragment with the members the protocol gives it. */
  predicate FragmentFits(c: Json) {
    && (Get(c, "type") == None || Get(c, "type") == Some(Str("function")))
    && TextIfAny(Get(c, "id")) && Get(c, "id") != Some(Str(""))
    && (match Get(c, "function")
        case None => true
        case Some(f) => f.Obj? && TextIfAny(Get(f, "name")) && TextIfAny(Get(f, "arguments")))
  }

  /** An id that a fragment of call `i` brings is that call's and no other's. */
  predicate IdFree(cs: seq<Json>, i: int, id: string) {
    forall k, j :: 0 <= k < |cs| && 0 <= j < CallsBegun(cs) && Of(cs[k], j) && StrOf(cs[k], "id").Some? ==>
                     (StrOf(cs[k], "id") == Some(id) <==> j == i)
  }

  /** The fragment may come behind the fragments `cs`: it goes on with a call or begins the next. */
  ghost predicate FragmentMayCome(env: Env, cs: seq<Json>, c: Json) {
    && FragmentFits(c)
    && exists i: nat :: Of(c, i) && i <= 0xFFFF_FFFF_FFFF_FFFF && i <= CallsBegun(cs)
                        && (i == CallsBegun(cs) ==> CallsBegun(cs) < env.maxItems)
                        && (StrOf(c, "id").Some? ==> IdFree(cs, i, StrOf(c, "id").value))
  }

  ghost predicate FragmentsMayCome(env: Env, cs: seq<Json>, more: seq<Json>) {
    forall k :: 0 <= k < |more| ==> FragmentMayCome(env, cs + more[..k], more[k])
  }

  /** All response ids given are this one. */
  predicate SameResponse(past: seq<Json>, id: Json) {
    forall j :: 0 <= j < |past| && Get(past[j], "id").Some? ==> Get(past[j], "id") == Some(id)
  }

  ghost predicate MayCome(env: Env, past: seq<Json>, v: Json) {
    && (Get(v, "error") == None || Get(v, "error") == Some(Null))
    && (match Get(v, "id")
        case None => true
        case Some(id) => id.Str? && SameResponse(past, id))
    && (match Get(v, "choices")
        case Some(Arr(items)) => |items| <= 1 && (|items| == 1 ==> !Finished(past) && ChoiceFits(items[0]))
        case _ => false)
    && FragmentsMayCome(env, AllFragments(past), Fragments(v))
    && (Fragments(v) != [] ==> |Fragments(v)| + (if TextSaid(v) == "" then 0 else 1) <= env.maxPending)
  }

  // -- what an event tells ------------------------------------------------------------------------------------

  function FragmentTells(c: Json): StreamDelta {
    ToolCallDelta(match Get(c, "index")
                  case Some(Int(n)) => if 0 <= n <= 0xFFFF_FFFF_FFFF_FFFF then n else 0
                  case _ => 0,
                  StrOf(c, "id"), AsStr(Within(c, "name")), AsStr(Within(c, "arguments")))
  }

  function FragmentsTell(cs: seq<Json>): (r: seq<StreamDelta>)
    ensures |r| == |cs| && forall k :: 0 <= k < |r| ==> r[k] == FragmentTells(cs[k])
  {
    seq(|cs|, k requires 0 <= k < |cs| => FragmentTells(cs[k]))
  }

  /** The usage known once a trace is in. */
  function UsageAfter(env: Env, es: seq<Json>): Fields {
    var l := Accounts(env, es);
    if l.Some? then l.value.usage else map[]
  }

  function EventTells(env: Env, past: seq<Json>, v: Json): seq<StreamDelta> {
    (if TextSaid(v) == "" then [] else [TextDelta(TextSaid(v))])
    + FragmentsTell(Fragments(v))
    + if GetSome(v, "usage").Some? then [Usage(Obj(UsageAfter(env, past + [v])))] else []
  }

  /** All a trace tells, event by event. */
  function Told(env: Env, es: seq<Json>): seq<StreamDelta>
    decreases |es|
  {
    if es == [] then []
    else Told(env, es[..|es| - 1]) + EventTells(env, es[..|es| - 1], es[|es| - 1])
  }

  // -- the assembler reads events so ----------------------------------------------------------------------------

  lemma {:induction false} EventRead(v: Json)
    ensures Choice(v) == ChoiceIn(v) && Fragments(v) == EventCalls(v) && ReasonSaid(v) == FinishIn(v)
    ensures TextSaid(v) == EventText(v, "content") && ThoughtSaid(v) == EventText(v, "reasoning_content")
  {
  }

  lemma {:induction false} FragmentRead(c: Json)
    ensures FragmentTells(c) == CallDelta(c)
    ensures FragmentFits(c) <==> WellTyped(c)
    ensures TextIn(CallFunction(c), "name") == Words(Within(c, "name"))
    ensures TextIn(CallFunction(c), "arguments") == Words(Within(c, "arguments"))
  {
  }

  lemma {:induction false} ChoiceRead(choice: Json)
    ensures ChoiceFits(choice) <==> GoodChoice(choice)
  {
  }

  lemma {:induction false} FragmentsRead(es: seq<Json>)
    ensures AllFragments(es) == AllCalls(es)
    decreases |es|
  {
    if es != [] {
      FragmentsRead(es[..|es| - 1]);
      EventRead(es[|es| - 1]);
    }
  }

  lemma {:induction false} CountRead(cs: seq<Json>)
    ensures CallsBegun(cs) == Count(cs)
    decreases |cs|
  {
    if cs != [] {
      CountRead(cs[..|cs| - 1]);
    }
  }

  lemma {:induction false} FinishedRead(es: seq<Json>)
    ensures Finished(es) <==> FinishOf(es).Some?
    ensures FinishOf(es).Some? ==> FinishedAs(es, FinishOf(es))
    decreases |es|
  {
    if es != [] {
      var past, v := es[..|es| - 1], es[|es| - 1];
      FinishedRead(past);
      EventRead(v);
      assert forall j :: 0 <= j < |past| ==> es[j] == past[j];
      if FinishIn(v).Some? {
        assert ReasonSaid(es[|past|]) == FinishOf(es);
      } else if FinishOf(past).Some? {
        var j :| 0 <= j < |past| && ReasonSaid(past[j]) == FinishOf(past);
        assert ReasonSaid(es[j]) == FinishOf(es);
      }
    }
  }

  lemma {:induction false} TellsRead(calls: seq<Json>)
    ensures FragmentsTell(calls) == CallDeltas(calls)
    decreases |calls|
  {
    if calls != [] {
      TellsRead(calls[1..]);
      FragmentRead(calls[0]);
      assert FragmentsTell(calls) == [FragmentTells(calls[0])] + FragmentsTell(calls[1..]);
    }
  }

  // -- ids ------------------------------------------------------------------------------------------------------

  /** What each call's fragments say of its id. */
  ghost predicate IdsSo(cs: seq<Json>) {
    && (forall k, j: nat :: 0 <= k < |cs| && IndexOf(cs[k]) == Some(j) && StrOf(cs[k], "id").Some? ==>
                              IdFor(cs, j) == StrOf(cs[k], "id"))
    && (forall j: nat :: IdFor(cs, j).Some? ==>
                           exists k :: 0 <= k < |cs| && IndexOf(cs[k]) == Some(j) && StrOf(cs[k], "id") == IdFor(cs, j))
  }

  lemma {:induction false} IdOfMore(cs: seq<Json>, c: Json, j: nat)
    ensures IdFor(cs + [c], j) ==
            if IdFor(cs, j).None? && IndexOf(c) == Some(j) then StrOf(c, "id") else IdFor(cs, j)
  {
    assert (cs + [c])[..|cs|] == cs;
  }

  lemma {:induction false} IdsMore(env: Env, cs: seq<Json>, c: Json)
    requires IdsSo(cs) && CallAllowed(env, cs, c)
    ensures IdsSo(cs + [c])
  {
    var all := cs + [c];
    forall j: nat ensures IdFor(all, j) == if IdFor(cs, j).None? && IndexOf(c) == Some(j) then StrOf(c, "id") else IdFor(cs, j) {
      IdOfMore(cs, c, j);
    }
    forall j: nat | IdFor(all, j).Some?
      ensures exists k :: 0 <= k < |all| && IndexOf(all[k]) == Some(j) && StrOf(all[k], "id") == IdFor(all, j)
    {
      if IdFor(cs, j).Some? {
        var k :| 0 <= k < |cs| && IndexOf(cs[k]) == Some(j) && StrOf(cs[k], "id") == IdFor(cs, j);
        assert all[k] == cs[k];
      } else {
        assert all[|cs|] == c;
      }
    }
  }

  lemma {:induction false} CallsBounded(cs: seq<Json>)
    ensures CallsBegun(cs) <= MAX_U64 + 1
    decreases |cs|
  {
    if cs != [] {
      CallsBounded(cs[..|cs| - 1]);
    }
  }

  lemma OfIndex(c: Json, j: nat)
    ensures Of(c, j) && j <= MAX_U64 <==> IndexOf(c) == Some(j)
  {
  }

  /** The ids of the calls begun, as the assembler keeps them. */
  ghost predicate IdFits(cs: seq<Json>, i: nat, id: string) {
    && (forall j: nat :: j < Count(cs) && j != i ==> IdFor(cs, j) != Some(id))
    && (i < Count(cs) && IdFor(cs, i).Some? ==> IdFor(cs, i) == Some(id))
  }

  lemma {:induction false} FreeIdFits(cs: seq<Json>, i: nat, id: string)
    requires IdsSo(cs) && IdFree(cs, i, id)
    ensures IdFits(cs, i, id)
  {
    CountRead(cs);
    forall j: nat | j < Count(cs) && IdFor(cs, j).Some? ensures IdFor(cs, j) == Some(id) <==> j == i {
      var k :| 0 <= k < |cs| && IndexOf(cs[k]) == Some(j) && StrOf(cs[k], "id") == IdFor(cs, j);
      OfIndex(cs[k], j);
      assert Of(cs[k], j);
    }
  }

  lemma {:induction false} FittingIdIsFree(cs: seq<Json>, i: nat, id: string)
    requires IdsSo(cs) && IdFits(cs, i, id)
    ensures IdFree(cs, i, id)
  {
    CountRead(cs);
    CallsBounded(cs);
    forall k, j | 0 <= k < |cs| && 0 <= j < CallsBegun(cs) && Of(cs[k], j) && StrOf(cs[k], "id").Some?
      ensures StrOf(cs[k], "id") == Some(id) <==> j == i
    {
      OfIndex(cs[k], j);
      assert IdFor(cs, j) == StrOf(cs[k], "id");
    }
  }

  lemma {:induction false} IdFreeExactly(cs: seq<Json>, i: nat, id: string)
    requires IdsSo(cs)
    ensures IdFree(cs, i, id) <==> IdFits(cs, i, id)
  {
    if IdFree(cs, i, id) {
      FreeIdFits(cs, i, id);
    }
    if IdFits(cs, i, id) {
      FittingIdIsFree(cs, i, id);
    }
  }

  lemma {:induction false} IdAllowed(env: Env, cs: seq<Json>, c: Json, i: nat)
    requires Tidy(cs) && IndexOf(c) == Some(i)
    ensures CallAllowed(env, cs, c) <==>
              && i <= Count(cs) && (i == Count(cs) ==> Count(cs) < env.maxItems) && WellTyped(c)
              && (StrOf(c, "id").Some? ==> IdFits(cs, i, StrOf(c, "id").value))
  {
    assert i >= Count(cs) ==> ToolFor(cs, i) == NoTool;
  }

  lemma {:induction false} FragmentExactly(env: Env, cs: seq<Json>, c: Json)
    requires IdsSo(cs) && Tidy(cs)
    ensures FragmentMayCome(env, cs, c) <==> CallAllowed(env, cs, c)
  {
    FragmentRead(c);
    CountRead(cs);
    forall j: nat ensures Of(c, j) && j <= MAX_U64 <==> IndexOf(c) == Some(j) {
      OfIndex(c, j);
    }
    if IndexOf(c).Some? {
      var i := IndexOf(c).value;
      IdAllowed(env, cs, c, i);
      if StrOf(c, "id").Some? {
        IdFreeExactly(cs, i, StrOf(c, "id").value);
      }
    }
  }

  lemma {:induction false} FragmentsFirst(env: Env, cs: seq<Json>, c: Json, rest: seq<Json>)
    ensures FragmentsMayCome(env, cs, [c] + rest) <==> FragmentMayCome(env, cs, c) && FragmentsMayCome(env, cs + [c], rest)
  {
    var more := [c] + rest;
    assert cs + more[..0] == cs;
    forall k | 0 <= k < |rest| ensures cs + more[..k + 1] == cs + [c] + rest[..k] && more[k + 1] == rest[k] {
    }
    if FragmentMayCome(env, cs, c) && FragmentsMayCome(env, cs + [c], rest) {
      forall k | 0 <= k < |more| ensures FragmentMayCome(env, cs + more[..k], more[k]) {
        if k > 0 {
          assert FragmentMayCome(env, cs + [c] + rest[..k - 1], rest[k - 1]);
        }
      }
    }
    if FragmentsMayCome(env, cs, more) {
      assert FragmentMayCome(env, cs + more[..0], more[0]);
      forall k | 0 <= k < |rest| ensures FragmentMayCome(env, cs + [c] + rest[..k], rest[k]) {
        assert FragmentMayCome(env, cs + more[..k + 1], more[k + 1]);
      }
    }
  }

  lemma {:induction false} FragmentsExactly(env: Env, cs: seq<Json>, more: seq<Json>)
    requires IdsSo(cs) && Tidy(cs)
    ensures FragmentsMayCome(env, cs, more) <==> CallsAllowed(env, cs, more)
    ensures CallsAllowed(env, cs, more) ==> IdsSo(cs + more)
    decreases |more|
  {
    if more == [] {
      NoneLast(cs);
    } else {
      var c, rest := more[0], more[1..];
      assert more == [c] + rest;
      FragmentsFirst(env, cs, c, rest);
      FragmentExactly(env, cs, c);
      if CallAllowed(env, cs, c) {
        IdsMore(env, cs, c);
        AllowedStaysTidy(env, cs, c);
        FragmentsExactly(env, cs + [c], rest);
        Associate(cs, [c], rest);
      }
    }
  }

  // -- events ------------------------------------------------------------------------------------------------------

  /** The response ids of a trace are one and the same. */
  ghost predicate ResponseSo(es: seq<Json>) {
    && (ResponseId(es).Some? ==> SameResponse(es, Str(ResponseId(es).value)))
    && (ResponseId(es).None? ==> forall j :: 0 <= j < |es| ==> Get(es[j], "id").None?)
    && (ResponseId(es).Some? ==> exists j :: 0 <= j < |es| && Get(es[j], "id") == Some(Str(ResponseId(es).value)))
  }

  lemma {:induction false} ResponseMore(past: seq<Json>, v: Json)
    requires ResponseSo(past) && (Get(v, "id").Some? ==> StrOf(v, "id").Some?)
    requires ResponseId(past).Some? && Get(v, "id").Some? ==> ResponseId(past) == StrOf(v, "id")
    ensures ResponseSo(past + [v])
  {
    var es := past + [v];
    assert es[..|past|] == past && es[|past|] == v;
    assert forall j :: 0 <= j < |past| ==> es[j] == past[j];
    if ResponseId(past).Some? {
      var j :| 0 <= j < |past| && Get(past[j], "id") == Some(Str(ResponseId(past).value));
      assert es[j] == past[j];
    }
  }

  /** What is known of a legal trace in its own words. */
  ghost predicate WellTold(es: seq<Json>) {
    ResponseSo(es) && IdsSo(AllCalls(es)) && Tidy(AllCalls(es))
  }

  lemma {:induction false} LegalIsTold(env: Env, es: seq<Json>)
    requires Legal(env, es)
    ensures WellTold(es)
    decreases |es|
  {
    if es != [] {
      var past, v := es[..|es| - 1], es[|es| - 1];
      SplitLast(es);
      LegalIsTold(env, past);
      TraceAgrees(env, es);
      ResponseMore(past, v);
      Unfold(env, past, v);
      FragmentsExactly(env, AllCalls(past), EventCalls(v));
    }
  }

  lemma {:induction false} IdExactly(past: seq<Json>, v: Json)
    requires ResponseSo(past)
    ensures (match Get(v, "id")
             case None => true
             case Some(id) => id.Str? && SameResponse(past, id)) <==>
            (Get(v, "id").Some? ==> StrOf(v, "id").Some? && (ResponseId(past).Some? ==> ResponseId(past) == StrOf(v, "id")))
  {
  }

  lemma {:induction false} ChoicesExactly(past: seq<Json>, v: Json)
    ensures (match Get(v, "choices")
             case Some(Arr(items)) => |items| <= 1 && (|items| == 1 ==> !Finished(past) && ChoiceFits(items[0]))
             case _ => false) <==>
            Choices(v).Some? && |Choices(v).value| <= 1
            && (ChoiceIn(v).Some? ==> FinishOf(past).None? && GoodChoice(ChoiceIn(v).value))
  {
    FinishedRead(past);
    if ChoiceIn(v).Some? {
      ChoiceRead(ChoiceIn(v).value);
    }
  }

  /** What the assembler allows next is what the protocol, in its own words, lets come. */
  lemma {:induction false} AllowedExactly(env: Env, past: seq<Json>, v: Json)
    requires Legal(env, past)
    ensures MayCome(env, past, v) <==> Allowed(env, past, v)
  {
    LegalIsTold(env, past);
    IdExactly(past, v);
    ChoicesExactly(past, v);
    EventRead(v);
    FragmentsRead(past);
    FragmentsExactly(env, AllCalls(past), EventCalls(v));
  }

  // -- what a trace costs --------------------------------------------------------------------------------------------

  /** A call's id is charged once, its name and arguments as they come. */
  function FragmentCharge(cs: seq<Json>, c: Json): nat {
    (match Get(c, "index")
     case Some(Int(i)) => if Identified(cs, i) then 0 else |TextIn(c, "id")|
     case _ => |TextIn(c, "id")|)
    + |Words(Within(c, "name"))| + |Words(Within(c, "arguments"))|
  }

  function FragmentsCharge(cs: seq<Json>, more: seq<Json>): nat {
    if more == [] then 0
    else FragmentsCharge(cs, more[..|more| - 1]) + FragmentCharge(cs + more[..|more| - 1], more[|more| - 1])
  }

  predicate NamedBefore(past: seq<Json>) {
    exists j :: 0 <= j < |past| && StrOf(past[j], "id").Some?
  }

  function EventCharge(past: seq<Json>, v: Json): nat {
    (if NamedBefore(past) then 0 else |TextIn(v, "id")|) + |TextSaid(v)| + |ThoughtSaid(v)|
    + FragmentsCharge(AllFragments(past), Fragments(v))
  }

  /** By how much the printed usage grew, if it did. */
  function UsageCharge(env: Env, before: Fields, after: Fields): int {
    var was, now := |env.codec.print_(Obj(before))|, |env.codec.print_(Obj(after))|;
    if now <= was then 0 else now - was
  }

  /** The bytes a trace is charged. */
  function Charged(env: Env, es: seq<Json>): int
    decreases |es|
  {
    if es == [] then 0
    else
      var past, v := es[..|es| - 1], es[|es| - 1];
      Charged(env, past) + EventCharge(past, v)
      + if GetSome(v, "usage").Some? then UsageCharge(env, UsageAfter(env, past), UsageAfter(env, es)) else 0
  }

  ghost predicate GoodReports(es: seq<Json>) {
    forall j :: 0 <= j < |es| && GetSome(es[j], "usage").Some? ==> GoodReport(GetSome(es[j], "usage").value)
  }

  lemma {:induction false} IdentifiedRead(cs: seq<Json>, i: nat)
    requires i <= MAX_U64
    ensures IdFor(cs, i).Some? <==> Identified(cs, i)
    decreases |cs|
  {
    if cs != [] {
      var past, c := cs[..|cs| - 1], cs[|cs| - 1];
      IdentifiedRead(past, i);
      OfIndex(c, i);
      assert forall k :: 0 <= k < |past| ==> cs[k] == past[k];
    }
  }

  lemma {:induction false} FragmentCharged(cs: seq<Json>, c: Json)
    requires IndexOf(c).Some?
    ensures FragmentCharge(cs, c) == CallCost(ToolFor(cs, IndexOf(c).value), c)
  {
    FragmentRead(c);
    IdentifiedRead(cs, IndexOf(c).value);
  }

  lemma {:induction false} ChargeFirst(cs: seq<Json>, c: Json, rest: seq<Json>)
    ensures FragmentsCharge(cs, [c] + rest) == FragmentCharge(cs, c) + FragmentsCharge(cs + [c], rest)
    decreases |rest|
  {
    var more := [c] + rest;
    if rest == [] {
      assert more[..0] == [] && cs + [] == cs;
    } else {
      var early, last := rest[..|rest| - 1], rest[|rest| - 1];
      ChargeFirst(cs, c, early);
      assert more[..|more| - 1] == [c] + early && more[|more| - 1] == last;
      Associate(cs, [c], early);
    }
  }

  lemma {:induction false} FragmentsCharged(env: Env, cs: seq<Json>, more: seq<Json>)
    requires CallsAllowed(env, cs, more)
    ensures FragmentsCharge(cs, more) == CallsCost(cs, more)
    decreases |more|
  {
    if more != [] {
      var c, rest := more[0], more[1..];
      assert more == [c] + rest;
      ChargeFirst(cs, c, rest);
      FragmentCharged(cs, c);
      FragmentsCharged(env, cs + [c], rest);
    }
  }

  lemma {:induction false} NamedRead(es: seq<Json>)
    ensures NamedBefore(es) <==> ResponseId(es).Some?
    decreases |es|
  {
    if es != [] {
      var past := es[..|es| - 1];
      NamedRead(past);
      assert forall j :: 0 <= j < |past| ==> es[j] == past[j];
    }
  }

  lemma {:induction false} EventCharged(env: Env, past: seq<Json>, v: Json)
    requires CallsAllowed(env, AllCalls(past), EventCalls(v))
    ensures EventCharge(past, v) == EventCost(past, v)
  {
    EventRead(v);
    FragmentsRead(past);
    NamedRead(past);
    FragmentsCharged(env, AllCalls(past), EventCalls(v));
  }

  lemma {:induction false} ReportsMore(past: seq<Json>, v: Json)
    ensures GoodReports(past + [v]) <==>
              GoodReports(past) && (GetSome(v, "usage").Some? ==> GoodReport(GetSome(v, "usage").value))
  {
    var es := past + [v];
    assert es[|past|] == v;
    assert forall j :: 0 <= j < |past| ==> es[j] == past[j];
  }

  /** The bytes and the usage accounted so far are those the trace's own words come to. */
  ghost predicate Accounted(env: Env, es: seq<Json>) {
    && (Accounts(env, es).Some? <==> GoodReports(es))
    && (GoodReports(es) ==> Accounts(env, es).value.bytes == Charged(env, es))
  }

  lemma {:induction false} AccountedMore(env: Env, past: seq<Json>, v: Json)
    requires Accounted(env, past) && GoodReports(past) && CallsAllowed(env, AllCalls(past), EventCalls(v))
    ensures Accounted(env, past + [v])
    ensures GoodReports(past + [v]) && GetSome(v, "usage").Some? ==>
              Merged(UsageAfter(env, past), GetSome(v, "usage").value, UsageAfter(env, past + [v]))
    ensures GetSome(v, "usage").None? ==> UsageAfter(env, past + [v]) == UsageAfter(env, past)
  {
    var es := past + [v];
    assert es[..|es| - 1] == past && es[|es| - 1] == v;
    ReportsMore(past, v);
    UnfoldAccounts(env, past, v);
    EventCharged(env, past, v);
    if GetSome(v, "usage").Some? {
      MergedExactly(UsageAfter(env, past), GetSome(v, "usage").value);
    }
  }

  // -- acceptance ----------------------------------------------------------------------------------------------------

  /** The trace keeps to the protocol, event by event, and within the output limit. */
  ghost predicate Kept(env: Env, es: seq<Json>)
    decreases |es|
  {
    es == [] ||
    (Kept(env, es[..|es| - 1]) && MayCome(env, es[..|es| - 1], es[|es| - 1])
     && GoodReports(es) && Charged(env, es) <= env.maxOutput)
  }

  lemma {:induction false} KeptIsLegal(env: Env, es: seq<Json>)
    ensures Kept(env, es) <==> Legal(env, es)
    ensures Legal(env, es) ==> Accounted(env, es) && GoodReports(es)
    decreases |es|
  {
    if es != [] {
      var past, v := es[..|es| - 1], es[|es| - 1];
      SplitLast(es);
      KeptIsLegal(env, past);
      if Legal(env, past) {
        AllowedExactly(env, past, v);
        if Allowed(env, past, v) {
          AccountedMore(env, past, v);
        }
      }
    }
  }

  lemma {:induction false} EventTold(env: Env, past: seq<Json>, v: Json)
    requires Choice(v).Some? || (TextSaid(v) == "" && Fragments(v) == [])
    ensures EventTells(env, past, v) == EventDeltas(env, past, v)
  {
    EventRead(v);
    TellsRead(EventCalls(v));
  }

  lemma NothingWithoutChoice(v: Json)
    ensures Choice(v).Some? || (TextSaid(v) == "" && Fragments(v) == [])
  {
  }

  lemma {:induction false} AllTold(env: Env, es: seq<Json>)
    ensures Told(env, es) == AllDeltas(env, es)
    decreases |es|
  {
    if es != [] {
      var past, v := es[..|es| - 1], es[|es| - 1];
      AllTold(env, past);
      NothingWithoutChoice(v);
      EventTold(env, past, v);
      SplitLast(es);
    }
  }

  /**
   The assembler accepts exactly the traces that keep to the protocol, in the protocol's own
   words, and delivers for each exactly what its events tell, in order.
   */
  lemma {:induction false} AcceptedExactly(env: Env, es: seq<Json>)
    ensures RunTrace(env, es).Ok? <==> Kept(env, es)
    ensures Kept(env, es) ==> RunTrace(env, es).value.1 == Told(env, es)
  {
    TraceAgrees(env, es);
    KeptIsLegal(env, es);
    AllTold(env, es);
  }

  /** A usage report leaves each count at the later of its values; other events leave the usage alone. */
  lemma {:induction false} UsageTold(env: Env, past: seq<Json>, v: Json)
    requires Kept(env, past + [v])
    ensures if GetSome(v, "usage").Some? then
              Merged(UsageAfter(env, past), GetSome(v, "usage").value, UsageAfter(env, past + [v]))
            else UsageAfter(env, past + [v]) == UsageAfter(env, past)
  {
    var es := past + [v];
    assert es[..|es| - 1] == past && es[|es| - 1] == v;
    KeptIsLegal(env, es);
    KeptIsLegal(env, past);
    ReportsMore(past, v);
    AccountedMore(env, past, v);
  }

  // -- what the assembler holds ------------------------------------------------------------------------------------------

  function AllTexts(es: seq<Json>): string
    decreases |es|
  {
    if es == [] then "" else AllTexts(es[..|es| - 1]) + TextSaid(es[|es| - 1])
  }

  function AllThoughts(es: seq<Json>): string
    decreases |es|
  {
    if es == [] then "" else AllThoughts(es[..|es| - 1]) + ThoughtSaid(es[|es| - 1])
  }

  /** The text under `key` in the fragments of call `i`, joined. */
  function JoinedWithin(cs: seq<Json>, i: nat, key: string): string {
    if cs == [] then ""
    else
      JoinedWithin(cs[..|cs| - 1], i, key) + if Of(cs[|cs| - 1], i) then Words(Within(cs[|cs| - 1], key)) else ""
  }

  /** The id that the fragments of call `i` give. */
  ghost predicate IdGiven(cs: seq<Json>, i: nat, id: Option<string>) {
    if id.Some? then exists k :: 0 <= k < |cs| && Of(cs[k], i) && StrOf(cs[k], "id") == id else !Identified(cs, i)
  }

  /** A call of the state is what its own fragments say. */
  ghost predicate CallHeld(cs: seq<Json>, i: nat, tool: Tool) {
    && tool.name == JoinedWithin(cs, i, "name") && tool.arguments == JoinedWithin(cs, i, "arguments")
    && IdGiven(cs, i, tool.id)
  }

  lemma {:induction false} TextsRead(es: seq<Json>)
    ensures AllTexts(es) == AllText(es, "content") && AllThoughts(es) == AllText(es, "reasoning_content")
    decreases |es|
  {
    if es != [] {
      TextsRead(es[..|es| - 1]);
      EventRead(es[|es| - 1]);
    }
  }

  lemma {:induction false} JoinedRead(cs: seq<Json>, i: nat, key: string)
    requires i <= MAX_U64 && key in {"name", "arguments"}
    ensures JoinedWithin(cs, i, key) == StringFor(cs, i, key)
    decreases |cs|
  {
    if cs != [] {
      var past, c := cs[..|cs| - 1], cs[|cs| - 1];
      JoinedRead(past, i, key);
      OfIndex(c, i);
      FragmentRead(c);
      NoneLast(JoinedWithin(past, i, key));
    }
  }

  lemma {:induction false} CallRead(cs: seq<Json>, i: nat)
    requires IdsSo(cs) && i <= MAX_U64
    ensures CallHeld(cs, i, ToolFor(cs, i))
  {
    JoinedRead(cs, i, "name");
    JoinedRead(cs, i, "arguments");
    IdentifiedRead(cs, i);
    if IdFor(cs, i).Some? {
      var k :| 0 <= k < |cs| && IndexOf(cs[k]) == Some(i) && StrOf(cs[k], "id") == IdFor(cs, i);
      OfIndex(cs[k], i);
      assert Of(cs[k], i);
    }
  }

  /** After an accepted trace the assembler holds the texts it said and a call for each one begun. */
  lemma {:induction false} StateTells(env: Env, es: seq<Json>)
    requires Kept(env, es)
    ensures RunTrace(env, es).Ok?
    ensures var st := RunTrace(env, es).value.0;
            && st.text == AllTexts(es) && st.reasoning == AllThoughts(es)
            && (if Finished(es) then st.finish.Some? && FinishedAs(es, st.finish) else st.finish.None?)
            && |st.tools| == CallsBegun(AllFragments(es))
            && forall i: nat :: i < |st.tools| ==> CallHeld(AllFragments(es), i, st.tools[i])
  {
    KeptIsLegal(env, es);
    TraceAgrees(env, es);
    LegalIsTold(env, es);
    TextsRead(es);
    FinishedRead(es);
    FragmentsRead(es);
    CountRead(AllCalls(es));
    CallsBounded(AllCalls(es));
    forall i: nat | i < Count(AllCalls(es)) ensures CallHeld(AllCalls(es), i, ToolsFor(AllCalls(es))[i]) {
      CallRead(AllCalls(es), i);
    }
  }

  // -- the end --------------------------------------------------------------------------------------------------------------

  /** The calls that stay: all but a last one that the token limit cut off. */
  predicate CallsKept(env: Env, tools: seq<Tool>, limited: bool, kept: seq<Tool>) {
    if limited && tools != [] && env.codec.parse(tools[|tools| - 1].arguments).None?
    then kept == tools[..|tools| - 1] else kept == tools
  }

  predicate AllWhole(env: Env, kept: seq<Tool>) {
    forall k :: 0 <= k < |kept| ==>
      kept[k].id.Some? && |kept[k].name| > 0 && env.codec.parse(kept[k].arguments).Some?
  }

  predicate CallSpelled(tool: Tool, v: Json) {
    tool.id.Some? &&
    v == Obj(map["id" := Str(tool.id.value), "type" := Str("function"),
                 "function" := Obj(map["name" := Str(tool.name), "arguments" := Str(tool.arguments)])])
  }

  /** The message says the texts that are there, and the calls in order. */
  predicate MessageSpelled(st: State, kept: seq<Tool>, m: Json) {
    && m.Obj?
    && m.fields.Keys == {"role", "tool_calls"} + (if st.text == "" then {} else {"content"})
                        + (if st.reasoning == "" then {} else {"reasoning_content"})
    && m.fields["role"] == Str("assistant")
    && (st.text != "" ==> m.fields["content"] == Str(st.text))
    && (st.reasoning != "" ==> m.fields["reasoning_content"] == Str(st.reasoning))
    && m.fields["tool_calls"].Arr? && |m.fields["tool_calls"].items| == |kept|
    && forall k :: 0 <= k < |kept| ==> CallSpelled(kept[k], m.fields["tool_calls"].items[k])
  }

  /** The body a batch call would have answered with. */
  predicate BodySpelled(st: State, kept: seq<Tool>, body: Json) {
    && body.Obj? && body.fields.Keys == {"choices"} + (if st.hasUsage then {"usage"} else {})
    && (st.hasUsage ==> body.fields["usage"] == Obj(st.usage))
    && body.fields["choices"].Arr? && |body.fields["choices"].items| == 1
    && var choice := body.fields["choices"].items[0];
       && choice.Obj? && choice.fields.Keys == {"message", "finish_reason"}
       && st.finish.Some? && choice.fields["finish_reason"] == Str(st.finish.value)
       && MessageSpelled(st, kept, choice.fields["message"])
  }

  lemma {:induction false} CallsSpelled(tools: seq<Tool>)
    requires forall k :: 0 <= k < |tools| ==> tools[k].id.Some?
    ensures |CallsJson(tools)| == |tools|
    ensures forall k :: 0 <= k < |tools| ==> CallSpelled(tools[k], CallsJson(tools)[k])
    decreases |tools|
  {
    if tools != [] {
      CallsSpelled(tools[..|tools| - 1]);
      var last := tools[|tools| - 1];
      var f := Obj(map["name" := Str(last.name), "arguments" := Str(last.arguments)]);
      assert map["type" := Str("function"), "function" := f]["id" := Str(last.id.value)] ==
             map["id" := Str(last.id.value), "type" := Str("function"), "function" := f];
    }
  }

  lemma {:induction false} MessageIsSpelled(st: State, kept: seq<Tool>)
    requires forall k :: 0 <= k < |kept| ==> kept[k].id.Some?
    ensures MessageSpelled(st, kept, MessageJson(st.text, st.reasoning, kept))
  {
    CallsSpelled(kept);
  }

  lemma {:induction false} BodyIsSpelled(st: State, kept: seq<Tool>, m: Json)
    requires st.finish.Some? && MessageSpelled(st, kept, m)
    ensures BodySpelled(st, kept, ResponseJson(m, st.finish.value, UsageOf(st)))
  {
  }

  /**
   `[DONE]` before a finish reason is refused; behind one it is refused exactly when a call that
   stays is not whole or the batch parser refuses the body, written out, that the state says, and
   else it answers what the parser makes of that body.
   */
  lemma {:induction false} DoneAnswers(env: Env, st: State, kept: seq<Tool>)
    requires st.finish.Some? ==> CallsKept(env, st.tools, env.classify(st.finish.value).MaxTokens?, kept)
    ensures st.finish.None? ==> Finish(env, st) == Err(Undecodable)
    ensures st.finish.Some? && !AllWhole(env, kept) ==> Finish(env, st) == Err(Undecodable)
    ensures st.finish.Some? && AllWhole(env, kept) ==>
              exists body :: BodySpelled(st, kept, body)
                             && Finish(env, st) == ChatParse.ParseResponse(env.codec, env.classify, body)
  {
    if st.finish.Some? {
      assert kept == ChatStream.Kept(env, st.tools, env.classify(st.finish.value).MaxTokens?);
      if AllWhole(env, kept) {
        MessageIsSpelled(st, kept);
        BodyIsSpelled(st, kept, MessageJson(st.text, st.reasoning, kept));
      }
    }
  }
}
