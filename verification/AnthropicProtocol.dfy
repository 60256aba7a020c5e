/**
 Which events an Anthropic stream may bring next and what each costs, read off the events before
 it as they stand in the JSON, names written out; and that the assembler accepts exactly those.
 */
module AnthropicProtocol {
  import opened Wrappers
  import opened Sequences
  import opened Json
  import opened StreamCommon
  import opened AnthropicStream
  import opened AnthropicStreamProof
  import opened AnthropicDeltas
  import opened UsageMerge
  import AnthropicParse

  // -- what has happened ------------------------------------------------------------------------

  predicate Begun(past: seq<Json>) {
    exists j :: 0 <= j < |past| && Typed(past[j], "message_start")
  }

  /** The content blocks begun so far, in order. */
  function BlocksBegun(past: seq<Json>): seq<Json> {
    if past == [] then []
    else
      var early, v := BlocksBegun(past[..|past| - 1]), past[|past| - 1];
      if Typed(v, "content_block_start") then early + [Member(v, "content_block")] else early
  }

  predicate StopsBlock(v: Json, i: nat) {
    Typed(v, "content_block_stop") && Get(v, "index") == Some(Int(i))
  }

  predicate BlockStopped(past: seq<Json>, i: nat) {
    exists j :: 0 <= j < |past| && StopsBlock(past[j], i)
  }

  predicate GivesReason(v: Json) {
    Typed(v, "message_delta") && GetSome(Member(v, "delta"), "stop_reason").Some?
  }

  predicate ReasonGiven(past: seq<Json>) {
    exists j :: 0 <= j < |past| && GivesReason(past[j])
  }

  /** Every reason given so far is this one. */
  predicate ReasonsAgree(past: seq<Json>, reason: Json) {
    forall j :: 0 <= j < |past| && GivesReason(past[j]) ==>
      GetSome(Member(past[j], "delta"), "stop_reason") == Some(reason)
  }

  // -- what may come ------------------------------------------------------------------------------

  predicate EmptyMessage(m: Json) {
    m.Obj? && Get(m, "content") == Some(Arr([])) && GetSome(m, "stop_reason").None?
  }

  predicate NamedText(v: Json, key: string) {
    match Get(v, key)
    case Some(Str(s)) => |s| > 0
    case _ => false
  }

  predicate HasObject(v: Json, key: string) {
    match Get(v, key)
    case Some(Obj(_)) => true
    case _ => false
  }

  /** A content block a stream may begin. */
  predicate BlockOpens(w: Json) {
    && StrOf(w, "type").Some?
    && (Typed(w, "text") ==> StrOf(w, "text").Some?)
    && (Typed(w, "thinking") ==> StrOf(w, "thinking").Some?
                                 && (Get(w, "signature").Some? ==> StrOf(w, "signature").Some?))
    && (Typed(w, "tool_use") ==> NamedText(w, "id") && NamedText(w, "name") && HasObject(w, "input"))
  }

  predicate IdUsed(blocks: seq<Json>, id: Option<string>) {
    exists k :: 0 <= k < |blocks| && StrOf(blocks[k], "id") == id
  }

  /** A piece the block can take. */
  predicate TakesPiece(w: Json, d: Json) {
    || (Typed(d, "text_delta") && Typed(w, "text") && StrOf(d, "text").Some?)
    || (Typed(d, "thinking_delta") && Typed(w, "thinking") && StrOf(d, "thinking").Some?)
    || (Typed(d, "signature_delta") && Typed(w, "thinking") && StrOf(d, "signature").Some?)
    || (Typed(d, "citations_delta") && Typed(w, "text") && Get(d, "citation").Some?)
    || (Typed(d, "input_json_delta") && !Typed(w, "text") && !Typed(w, "thinking") && HasObject(w, "input")
        && StrOf(d, "partial_json").Some?)
  }

  /** The number of the block an event names, if that block is open. */
  predicate NamesOpen(past: seq<Json>, v: Json, i: nat) {
    && Begun(past) && !ReasonGiven(past) && i < |BlocksBegun(past)| && !BlockStopped(past, i)
    && i <= 0xFFFF_FFFF_FFFF_FFFF && Get(v, "index") == Some(Int(i))
  }

  /** Arguments that arrived in pieces must not come to a value other than an object. */
  predicate ArgumentsFit(env: Env, pieces: seq<string>) {
    pieces != [] ==> match env.codec.parse(Concat(pieces))
                     case None => true
                     case Some(Obj(_)) => true
                     case _ => false
  }

  predicate MayBegin(env: Env, past: seq<Json>, v: Json) {
    var n, w := |BlocksBegun(past)|, Member(v, "content_block");
    && Begun(past) && !ReasonGiven(past) && n < env.maxItems && n <= 0xFFFF_FFFF_FFFF_FFFF
    && Get(v, "index") == Some(Int(n)) && BlockOpens(w)
    && (Typed(w, "tool_use") ==> !IdUsed(BlocksBegun(past), StrOf(w, "id")))
  }

  ghost predicate MayContinue(past: seq<Json>, v: Json) {
    exists i: nat :: NamesOpen(past, v, i) && TakesPiece(BlocksBegun(past)[i], Member(v, "delta"))
  }

  ghost predicate MayStop(env: Env, past: seq<Json>, v: Json) {
    exists i: nat :: NamesOpen(past, v, i) && ArgumentsFit(env, ArgumentsAt(past, Some(Int(i))))
  }

  predicate AllBlocksStopped(past: seq<Json>) {
    forall i: nat :: i < |BlocksBegun(past)| ==> BlockStopped(past, i)
  }

  predicate MayReport(past: seq<Json>, v: Json) {
    && Begun(past) && AllBlocksStopped(past) && Get(v, "delta").Some?
    && match GetSome(Member(v, "delta"), "stop_reason")
       case None => true
       case Some(reason) => reason.Str? && ReasonsAgree(past, reason)
  }

  /** The event may come next, `message_stop` and `error` apart; events of other types always may. */
  ghost predicate MayCome(env: Env, past: seq<Json>, v: Json) {
    && StrOf(v, "type").Some? && !Typed(v, "error") && !Typed(v, "message_stop")
    && (Typed(v, "message_start") ==> !Begun(past) && EmptyMessage(Member(v, "message")))
    && (Typed(v, "content_block_start") ==> MayBegin(env, past, v))
    && (Typed(v, "content_block_delta") ==> MayContinue(past, v))
    && (Typed(v, "content_block_stop") ==> MayStop(env, past, v))
    && (Typed(v, "message_delta") ==> MayReport(past, v))
  }

  // -- the trace's own words -------------------------------------------------------------------------

  lemma OneMore(past: seq<Json>, v: Json)
    ensures Begun(past + [v]) <==> Begun(past) || Typed(v, "message_start")
    ensures ReasonGiven(past + [v]) <==> ReasonGiven(past) || GivesReason(v)
    ensures BlocksBegun(past + [v]) ==
            BlocksBegun(past) + if Typed(v, "content_block_start") then [Member(v, "content_block")] else []
  {
    var es := past + [v];
    assert es[..|past|] == past && es[|past|] == v;
    assert forall j :: 0 <= j < |past| ==> es[j] == past[j];
  }

  lemma {:induction false} HappenedSo(es: seq<Json>)
    ensures Begun(es) <==> HasStarted(es)
    ensures BlocksBegun(es) == Starts(es)
    decreases |es|
  {
    if es != [] {
      var past, v := es[..|es| - 1], es[|es| - 1];
      SplitLast(es);
      HappenedSo(past);
      OneMore(past, v);
      Unfold(past, v);
      EventKinds(v);
    }
  }

  lemma {:induction false} StoppedSo(es: seq<Json>, i: nat)
    requires i <= MAX_U64
    ensures BlockStopped(es, i) <==> StopFor(es, i)
    decreases |es|
  {
    if es != [] {
      var past, v := es[..|es| - 1], es[|es| - 1];
      SplitLast(es);
      StoppedSo(past, i);
      StoppedMore(past, v, i);
      UnfoldBlock(past, v, i);
      EventKinds(v);
      NamesRead(v, i);
    }
  }

  lemma StoppedMore(past: seq<Json>, v: Json, i: nat)
    ensures BlockStopped(past + [v], i) <==> BlockStopped(past, i) || StopsBlock(v, i)
  {
    var es := past + [v];
    assert es[|past|] == v;
    assert forall j :: 0 <= j < |past| ==> es[j] == past[j];
  }

  /** A legal trace gives one reason at most. */
  ghost predicate ReasonsSo(es: seq<Json>) {
    && (ReasonGiven(es) <==> Reason(es).Some?)
    && (Reason(es).Some? ==> ReasonsAgree(es, Str(Reason(es).value)))
  }

  lemma {:induction false} LegalReasons(env: Env, es: seq<Json>)
    requires Legal(env, es)
    ensures ReasonsSo(es)
    decreases |es|
  {
    if es != [] {
      var past, v := es[..|es| - 1], es[|es| - 1];
      SplitLast(es);
      LegalReasons(env, past);
      OneMore(past, v);
      Unfold(past, v);
      EventKinds(v);
      if Reason(es).Some? {
        ReasonMore(past, v, Str(Reason(es).value));
      }
    }
  }

  lemma ReasonMore(past: seq<Json>, v: Json, reason: Json)
    ensures ReasonsAgree(past + [v], reason) <==>
              && ReasonsAgree(past, reason)
              && (GivesReason(v) ==> GetSome(Member(v, "delta"), "stop_reason") == Some(reason))
  {
    var es := past + [v];
    assert es[|past|] == v;
    assert forall j :: 0 <= j < |past| ==> es[j] == past[j];
  }

  // -- what the assembler allows is what may come ------------------------------------------------------

  /** What is known of a legal trace in its own words. */
  ghost predicate WellTold(past: seq<Json>) {
    && (Begun(past) <==> HasStarted(past)) && BlocksBegun(past) == Starts(past) && ReasonsSo(past)
    && |Starts(past)| <= MAX_U64 + 1
    && forall i: nat :: i <= MAX_U64 ==> (BlockStopped(past, i) <==> StopFor(past, i))
  }

  lemma {:induction false} LegalIsTold(env: Env, past: seq<Json>)
    requires Legal(env, past)
    ensures WellTold(past)
  {
    HappenedSo(past);
    LegalReasons(env, past);
    StartsBounded(env, past);
    forall i: nat | i <= MAX_U64 ensures BlockStopped(past, i) <==> StopFor(past, i) {
      StoppedSo(past, i);
    }
  }

  lemma OpensExactly(w: Json)
    ensures BlockOpens(w) <==> Openable(w)
  {
    AnthropicDeltas.BlockKinds(w);
  }

  lemma TakesExactly(w: Json, d: Json)
    requires Openable(w)
    ensures TakesPiece(w, d) <==> Fits(w, d)
  {
    AnthropicDeltas.BlockKinds(w);
    PieceKinds(d);
  }

  lemma {:induction false} BeginExactly(env: Env, past: seq<Json>, v: Json)
    requires WellTold(past)
    ensures MayBegin(env, past, v) <==> StartAllowed(env, past, v)
  {
    OpensExactly(StartWire(v));
    AnthropicDeltas.BlockKinds(StartWire(v));
    if BlockOpens(StartWire(v)) && Typed(StartWire(v), "tool_use") {
      IdExactly(past, StartWire(v));
    }
  }

  lemma IdExactly(past: seq<Json>, w: Json)
    requires BlocksBegun(past) == Starts(past) && StrOf(w, "id").Some?
    ensures IdUsed(BlocksBegun(past), StrOf(w, "id")) <==> IdTaken(Starts(past), w)
  {
  }

  lemma {:induction false} OpenExactly(past: seq<Json>, v: Json, i: nat)
    requires WellTold(past)
    ensures NamesOpen(past, v, i) <==> OpenIndex(past, v) && AsU64(Get(v, "index")) == Some(i)
  {
  }

  lemma {:induction false} ContinueExactly(env: Env, past: seq<Json>, v: Json)
    requires WellTold(past) && Sound(env, past)
    ensures MayContinue(past, v) <==> DeltaAllowed(past, v)
  {
    var i := AsU64(Get(v, "index"));
    forall j: nat ensures NamesOpen(past, v, j) <==> OpenIndex(past, v) && i == Some(j) {
      OpenExactly(past, v, j);
    }
    if OpenIndex(past, v) {
      TakesExactly(Starts(past)[i.value], DeltaIn(v));
    }
  }

  lemma FitExactly(env: Env, pieces: seq<string>, saw: bool, arguments: string)
    requires (pieces != [] <==> saw) && Concat(pieces) == arguments
    ensures ArgumentsFit(env, pieces) <==> Closable(env, saw, arguments)
  {
  }

  lemma {:induction false} StopExactly(env: Env, past: seq<Json>, v: Json)
    requires WellTold(past)
    ensures MayStop(env, past, v) <==> StopAllowed(env, past, v)
  {
    var i := AsU64(Get(v, "index"));
    forall j: nat ensures NamesOpen(past, v, j) <==> OpenIndex(past, v) && i == Some(j) {
      OpenExactly(past, v, j);
    }
    if OpenIndex(past, v) {
      ArgumentsRead(env, past, i.value);
      var ds := DeltasFor(past, i.value);
      FitExactly(env, ArgumentsAt(past, Some(Int(i.value))), HasPiece(ds, InputPiece), Pieces(ds, InputPiece));
    }
  }

  lemma {:induction false} StopsExactly(past: seq<Json>)
    requires WellTold(past)
    ensures AllBlocksStopped(past) <==> AllStopped(past)
  {
  }

  lemma {:induction false} ReportExactly(env: Env, past: seq<Json>, v: Json)
    requires WellTold(past) && Typed(v, "message_delta")
    ensures MayReport(past, v) <==> ReportAllowed(past, v)
  {
    StopsExactly(past);
    EventKinds(v);
    var reason := GetSome(Member(v, "delta"), "stop_reason");
    assert ReasonIn(v) == reason;
    if reason.Some? && reason.value.Str? {
      ReasonFits(past, reason.value);
    }
  }

  lemma ReasonFits(past: seq<Json>, reason: Json)
    requires ReasonsSo(past) && reason.Str?
    ensures ReasonsAgree(past, reason) <==> (Reason(past).Some? ==> Reason(past) == Some(reason.s))
  {
    if Reason(past).Some? {
      var j :| 0 <= j < |past| && GivesReason(past[j]);
      assert GetSome(Member(past[j], "delta"), "stop_reason") == Some(Str(Reason(past).value));
    }
  }

  /** What the assembler allows next is what the protocol, in its own words, lets come. */
  lemma {:induction false} AllowedExactly(env: Env, past: seq<Json>, v: Json)
    requires Legal(env, past)
    ensures MayCome(env, past, v) <==> Allowed(env, past, v)
  {
    LegalIsTold(env, past);
    LegalIsSound(env, past);
    EventKinds(v);
    match KindOf(v)
    case Some(BlockStart) => BeginExactly(env, past, v);
    case Some(BlockDelta) => ContinueExactly(env, past, v);
    case Some(BlockStop) => StopExactly(env, past, v);
    case Some(MessageDelta) => ReportExactly(env, past, v);
    case _ =>
  }

  // -- what a trace costs ---------------------------------------------------------------------------------

  function Printed(env: Env, v: Json): nat {
    |env.codec.print_(v)|
  }

  function MembersCharge(env: Env, fields: Fields, keys: seq<string>, apart: set<string>): nat {
    if keys == [] then 0
    else
      MembersCharge(env, fields, keys[1..], apart) +
      if keys[0] in apart || keys[0] !in fields then 0 else |keys[0]| + Printed(env, fields[keys[0]])
  }

  /** The members of a block, printed; those already charged as text apart. */
  function OthersCharge(env: Env, w: Json, apart: set<string>): nat {
    match w
    case Obj(fields) => MembersCharge(env, fields, env.order(fields), apart)
    case _ => 0
  }

  function BeginCharge(env: Env, w: Json): nat {
    if Typed(w, "text") then 4 + |TextIn(w, "text")| + OthersCharge(env, w, {"type", "text"})
    else if Typed(w, "thinking") then
      8 + |TextIn(w, "thinking")| + |TextIn(w, "signature")| + OthersCharge(env, w, {})
    else if Typed(w, "tool_use") then
      8 + |TextIn(w, "id")| + |TextIn(w, "name")| + OthersCharge(env, w, {"type", "id", "name", "input"})
      + if Get(w, "input").Some? then Printed(env, Member(w, "input")) else 0
    else |TextIn(w, "type")| + OthersCharge(env, w, {})
  }

  function PieceCharge(env: Env, d: Json): nat {
    if Typed(d, "text_delta") then |TextIn(d, "text")|
    else if Typed(d, "thinking_delta") then |TextIn(d, "thinking")|
    else if Typed(d, "signature_delta") then |TextIn(d, "signature")|
    else if Typed(d, "input_json_delta") then |TextIn(d, "partial_json")|
    else if Typed(d, "citations_delta") then Printed(env, Member(d, "citation"))
    else 0
  }

  function EventCharge(env: Env, v: Json): nat {
    if Typed(v, "content_block_start") then BeginCharge(env, Member(v, "content_block"))
    else if Typed(v, "content_block_delta") then PieceCharge(env, Member(v, "delta"))
    else 0
  }

  /** By how much the printed usage grew, if it did. */
  function UsageCharge(env: Env, before: Fields, after: Fields): int {
    var was, now := Printed(env, Obj(before)), Printed(env, Obj(after));
    if now <= was then 0 else now - was
  }

  /** The bytes a trace is charged. */
  function Charged(env: Env, es: seq<Json>): int
    decreases |es|
  {
    if es == [] then 0
    else
      var past, v := es[..|es| - 1], es[|es| - 1];
      Charged(env, past) + EventCharge(env, v)
      + if UsageReported(v).Some? then UsageCharge(env, UsageAfter(env, past), UsageAfter(env, es)) else 0
  }

  /** Every usage report of the trace is well formed. */
  ghost predicate GoodReports(es: seq<Json>) {
    forall j :: 0 <= j < |es| && UsageReported(es[j]).Some? ==> GoodReport(UsageReported(es[j]).value)
  }

  lemma {:induction false} MembersExactly(env: Env, fields: Fields, keys: seq<string>, apart: set<string>)
    ensures MembersCharge(env, fields, keys, apart) == FieldsCost(env, fields, keys, apart)
    decreases |keys|
  {
    if keys != [] {
      MembersExactly(env, fields, keys[1..], apart);
    }
  }

  lemma {:induction false} OthersExactly(env: Env, w: Json, apart: set<string>)
    ensures OthersCharge(env, w, apart) == OtherFieldsCost(env, w, apart)
  {
    if w.Obj? {
      MembersExactly(env, w.fields, env.order(w.fields), apart);
    }
  }

  lemma {:induction false} BeginCharged(env: Env, w: Json)
    ensures BeginCharge(env, w) == OpenCost(env, w)
  {
    AnthropicDeltas.BlockKinds(w);
    OthersExactly(env, w, {"type", "text"});
    OthersExactly(env, w, {});
    OthersExactly(env, w, {"type", "id", "name", "input"});
  }

  lemma PieceCharged(env: Env, d: Json)
    ensures PieceCharge(env, d) == DeltaCost(env, d)
  {
    PieceKinds(d);
  }

  lemma {:induction false} EventCharged(env: Env, v: Json)
    ensures EventCharge(env, v) == EventCost(env, v)
  {
    EventKinds(v);
    BeginCharged(env, StartWire(v));
    PieceCharged(env, DeltaIn(v));
  }

  lemma ReportedSo(v: Json)
    ensures UsageReported(v) == UsageIn(v)
  {
    EventKinds(v);
  }

  lemma {:induction false} ReportsMore(past: seq<Json>, v: Json)
    ensures GoodReports(past + [v]) <==>
              GoodReports(past) && (UsageReported(v).Some? ==> GoodReport(UsageReported(v).value))
  {
    var es := past + [v];
    assert es[|past|] == v;
    assert forall j :: 0 <= j < |past| ==> es[j] == past[j];
  }

  /** Usage and bytes are accounted as the trace's own words have it. */
  lemma {:induction false} AccountedExactly(env: Env, es: seq<Json>)
    ensures Accounts(env, es).Some? <==> GoodReports(es)
    ensures GoodReports(es) ==> Accounts(env, es).value.bytes == Charged(env, es)
    decreases |es|
  {
    if es != [] {
      var past, v := es[..|es| - 1], es[|es| - 1];
      SplitLast(es);
      AccountedExactly(env, past);
      ReportsMore(past, v);
      if Accounts(env, past).Some? {
        UnfoldAccounts(env, past, v);
        ReportedSo(v);
        EventCharged(env, v);
        if UsageReported(v).Some? {
          MergedExactly(UsageAfter(env, past), UsageReported(v).value);
        }
      } else {
        assert Accounts(env, es).None?;
      }
    }
  }

  /** A usage report leaves each count at the later of its values; other events leave the usage alone. */
  lemma {:induction false} UsageTold(env: Env, past: seq<Json>, v: Json)
    requires GoodReports(past + [v])
    ensures if UsageReported(v).Some? then
              Merged(UsageAfter(env, past), UsageReported(v).value, UsageAfter(env, past + [v]))
            else UsageAfter(env, past + [v]) == UsageAfter(env, past)
  {
    ReportsMore(past, v);
    AccountedExactly(env, past);
    UnfoldAccounts(env, past, v);
    ReportedSo(v);
    if UsageReported(v).Some? {
      MergedExactly(UsageAfter(env, past), UsageReported(v).value);
    }
  }

  // -- acceptance ------------------------------------------------------------------------------------------

  /** The trace keeps to the protocol, event by event, and within the output limit. */
  ghost predicate Kept(env: Env, es: seq<Json>)
    decreases |es|
  {
    es == [] ||
    (Kept(env, es[..|es| - 1]) && MayCome(env, es[..|es| - 1], es[|es| - 1])
     && GoodReports(es) && Charged(env, es) <= env.maxOutput)
  }

  lemma {:induction false} KeptIsLegal(env: Env, es: seq<Json>)
    ensures Kept(env, es) <==> Legal(env, es)
    decreases |es|
  {
    if es != [] {
      var past, v := es[..|es| - 1], es[|es| - 1];
      SplitLast(es);
      KeptIsLegal(env, past);
      AccountedExactly(env, es);
      if Legal(env, past) {
        AllowedExactly(env, past, v);
      }
    }
  }

  /** The assembler accepts exactly the traces that keep to the protocol, in the protocol's own words. */
  lemma {:induction false} AcceptedExactly(env: Env, es: seq<Json>)
    requires forall v :: v in es ==> !Typed(v, "message_stop")
    ensures RunTrace(env, es).Ok? <==> Kept(env, es)
  {
    forall v | v in es ensures KindOf(v) != Some(MessageStop) {
      EventKinds(v);
    }
    TraceAgrees(env, es);
    KeptIsLegal(env, es);
  }
}
