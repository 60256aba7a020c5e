/** Streams of one chunk on which the Chat stream and the batch parser give different answers. */
module ChatStreamDiffers {
  import opened Wrappers
  import opened Json
  import opened StreamCommon
  import opened ChatStream
  import opened ChatStreamProof
  import opened ChatStreamEnd

  function Choice(call: Json, finish: string): Json {
    Obj(map["index" := Int(0), "delta" := Obj(map["tool_calls" := Arr([call])]), "finish_reason" := Str(finish)])
  }

  /** One chunk that carries one call fragment and the finish reason. */
  function Chunk(call: Json, finish: string): Json {
    Obj(map["choices" := Arr([Choice(call, finish)])])
  }

  /** The state a chunk with one fragment leads to. */
  function Single(tool: Tool, finish: string, bytes: nat): State {
    State(None, "", "", [tool], Some(finish), map[], false, bytes)
  }

  lemma ChoiceReads(call: Json, finish: string)
    ensures var c := Choice(call, finish);
            && GoodChoice(c) && CallsIn(c) == [call] && GetSome(c, "finish_reason") == Some(Str(finish))
            && TextIn(DeltaOf(c), "content") == "" && TextIn(DeltaOf(c), "reasoning_content") == ""
  {
    var c := Choice(call, finish);
    var delta := Obj(map["tool_calls" := Arr([call])]);
    assert Get(c, "index") == Some(Int(0)) && Get(c, "delta") == Some(delta);
    assert Get(c, "finish_reason") == Some(Str(finish));
    assert Get(delta, "tool_calls") == Some(Arr([call]));
    assert Get(delta, "content").None? && Get(delta, "reasoning_content").None? && Get(delta, "function_call").None?;
  }

  lemma ChunkReads(call: Json, finish: string)
    ensures var v := Chunk(call, finish);
            && ChoiceIn(v) == Some(Choice(call, finish))
            && Get(v, "id").None? && Get(v, "error").None? && Get(v, "usage").None?
  {
    var v := Chunk(call, finish);
    assert Get(v, "choices") == Some(Arr([Choice(call, finish)]));
  }

  /** What the chunk says, and what it costs. */
  lemma ChunkSays(call: Json, finish: string)
    ensures var v := Chunk(call, finish);
            && EventCalls(v) == [call] && EventText(v, "content") == "" && EventText(v, "reasoning_content") == ""
            && FinishIn(v) == Some(finish) && GetSome(v, "error").None? && GetSome(v, "usage").None?
            && StrOf(v, "id").None? && Choices(v) == Some([Choice(call, finish)]) && GoodChoice(ChoiceIn(v).value)
  {
    ChoiceReads(call, finish);
    ChunkReads(call, finish);
  }

  lemma FirstCall(env: Env, call: Json)
    requires WellTyped(call) && IndexOf(call) == Some(0) && env.maxItems > 0
    ensures CallsAllowed(env, [], [call]) && CallsCost([], [call]) == CallCost(NoTool, call)
    ensures ToolsFor([call]) == [Extended(NoTool, call)]
  {
    assert [] + [call] == [call] && [call][1..] == [];
    UnfoldCall([], call, 0);
    assert ToolFor([], 0) == NoTool && Count([]) == 0;
  }

  lemma ChunkAllowed(env: Env, call: Json, finish: string)
    requires WellTyped(call) && IndexOf(call) == Some(0) && env.maxItems > 0 && env.maxPending > 0
    ensures Allowed(env, [], Chunk(call, finish))
  {
    ChunkSays(call, finish);
    ChunkReads(call, finish);
    FirstCall(env, call);
    assert AllCalls([]) == [];
  }

  lemma {:induction false} ChunkAccounts(env: Env, call: Json, finish: string)
    requires WellTyped(call) && IndexOf(call) == Some(0) && env.maxItems > 0
    ensures Accounts(env, [Chunk(call, finish)]) == Some(Ledger(map[], false, CallCost(NoTool, call)))
  {
    var v := Chunk(call, finish);
    ChunkSays(call, finish);
    FirstCall(env, call);
    assert [v][..0] == [] && AllCalls([]) == [];
    assert Accounts(env, []) == Some(Ledger(map[], false, 0));
  }

  lemma ChunkTells(env: Env, call: Json, finish: string)
    ensures var es := [Chunk(call, finish)];
            && AllCalls(es) == [call] && ResponseId(es).None? && FinishOf(es) == Some(finish)
            && AllText(es, "content") == "" && AllText(es, "reasoning_content") == ""
  {
    var v := Chunk(call, finish);
    ChunkSays(call, finish);
    Unfold(env, [], v);
    assert [] + [v] == [v] && [] + [call] == [call];
    assert AllCalls([]) == [] && AllText([], "content") == "" && AllText([], "reasoning_content") == "";
  }

  /** The chunk is a legal stream by itself, and leaves the assembler with the one call. */
  lemma OneChunk(env: Env, call: Json, finish: string)
    requires WellTyped(call) && IndexOf(call) == Some(0)
    requires env.maxItems > 0 && env.maxPending > 0 && CallCost(NoTool, call) <= env.maxOutput
    ensures Legal(env, [Chunk(call, finish)])
    ensures Expected(env, [Chunk(call, finish)]) == Single(Extended(NoTool, call), finish, CallCost(NoTool, call))
  {
    var v := Chunk(call, finish);
    ChunkAllowed(env, call, finish);
    ChunkAccounts(env, call, finish);
    ChunkTells(env, call, finish);
    FirstCall(env, call);
    assert [v][..0] == [];
    assert Legal(env, []);
    assert Affordable(env, [v]);
    assert Legal(env, [v]);
    assert ToolsFor(AllCalls([v])) == [Extended(NoTool, call)];
  }

  // -- a call without a name --------------------------------------------------------------------

  /** A call with an id and complete arguments, and no name. */
  function Nameless(arguments: string): Json {
    Obj(map["index" := Int(0), "id" := Str("a"), "function" := Obj(map["arguments" := Str(arguments)])])
  }

  lemma NamelessReads(arguments: string)
    ensures var call := Nameless(arguments);
            && WellTyped(call) && IndexOf(call) == Some(0) && Extended(NoTool, call) == Tool(Some("a"), "", arguments)
            && CallCost(NoTool, call) == 1 + |arguments|
  {
    var call, f := Nameless(arguments), Obj(map["arguments" := Str(arguments)]);
    assert Get(call, "index") == Some(Int(0)) && Get(call, "id") == Some(Str("a")) && Get(call, "function") == Some(f);
    assert Get(call, "type").None? && Get(f, "name").None? && Get(f, "arguments") == Some(Str(arguments));
    assert "" + arguments == arguments;
  }

  lemma NamelessState(env: Env, arguments: string, bytes: nat)
    requires env.codec.parse(arguments).Some?
    ensures var st := Single(Tool(Some("a"), "", arguments), "tool_calls", bytes);
            Batch(env, st).Ok? && Finish(env, st) == Err(Undecodable)
  {
    var tool := Tool(Some("a"), "", arguments);
    var st := Single(tool, "tool_calls", bytes);
    assert st.tools[|st.tools| - 1] == tool && Complete(env, tool);
    var kept := Kept(env, st.tools, Limited(env, st));
    assert kept == [tool] && kept[0].name == "";
    StreamEqualsBatch(env, st);
  }

  /**
   A stream of one chunk, with a call that never gets a name, is legal and fails at `[DONE]`; the
   batch parser takes the same message.
   */
  lemma {:induction false} NamelessCallDiffers(env: Env, arguments: string)
    requires env.codec.parse(arguments).Some?
    requires env.maxItems > 0 && env.maxPending > 0 && 1 + |arguments| <= env.maxOutput
    ensures var es := [Chunk(Nameless(arguments), "tool_calls")];
            && Legal(env, es) && Batch(env, Expected(env, es)).Ok? && Finish(env, Expected(env, es)) == Err(Undecodable)
  {
    NamelessReads(arguments);
    OneChunk(env, Nameless(arguments), "tool_calls");
    NamelessState(env, arguments, 1 + |arguments|);
  }

  // -- a call cut off before its id -------------------------------------------------------------

  /** A call with a name and the first byte of its arguments, and no id. */
  const Unidentified: Json :=
    Obj(map["index" := Int(0), "function" := Obj(map["name" := Str("f"), "arguments" := Str("{")])])

  lemma UnidentifiedReads()
    ensures WellTyped(Unidentified) && IndexOf(Unidentified) == Some(0)
    ensures Extended(NoTool, Unidentified) == Tool(None, "f", "{") && CallCost(NoTool, Unidentified) == 2
  {
    var f := Obj(map["name" := Str("f"), "arguments" := Str("{")]);
    assert Get(Unidentified, "index") == Some(Int(0)) && Get(Unidentified, "function") == Some(f);
    assert Get(Unidentified, "type").None? && Get(Unidentified, "id").None?;
    assert Get(f, "name") == Some(Str("f")) && Get(f, "arguments") == Some(Str("{"));
  }

  /**
   A stream of one chunk, cut off by the token limit before its call got an id, is legal and ends
   without the call; the batch parser refuses the same message.
   */
  lemma {:induction false} LostCallDiffers(env: Env)
    requires env.codec.parse("{").None? && env.classify("length").MaxTokens?
    requires env.maxItems > 0 && env.maxPending > 0 && env.maxOutput >= 2
    ensures var es := [Chunk(Unidentified, "length")];
            && Legal(env, es) && Finish(env, Expected(env, es)).Ok? && Batch(env, Expected(env, es)) == Err(Undecodable)
  {
    UnidentifiedReads();
    OneChunk(env, Unidentified, "length");
    var tool := Tool(None, "f", "{");
    var st := Single(tool, "length", 2);
    assert st.tools[|st.tools| - 1] == tool && !Complete(env, tool);
    assert Kept(env, st.tools, true) == [];
    StreamEqualsBatch(env, st);
  }
}
