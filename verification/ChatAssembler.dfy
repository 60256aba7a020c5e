/** The Chat assembler as an object that updates its fields event by event, proved against the machine. */
module ChatAssembler {
  import opened Wrappers
  import opened Json
  import opened Model
  import opened StreamCommon
  import opened ChatParse
  import opened ChatStream
  import opened ChatStreamEnd
  import Sse

  class Assembler {
    const env: Env
    var id: Option<string>
    var text: string
    var reasoning: string
    var tools: seq<Tool>
    var finish: Option<string>
    var usage: Fields
    var hasUsage: bool
    var bytes: nat

    ghost function Current(): State
      reads this
    {
      State(id, text, reasoning, tools, finish, usage, hasUsage, bytes)
    }

    /** The object did what the machine does. */
    ghost predicate Answers(expected: Reaction, result: Result<seq<StreamDelta>, ErrorKind>)
      reads this
    {
      match expected
      case Err(kind) => result == Err(kind)
      case Ok((next, deltas)) => result == Ok(deltas) && Current() == next
    }

    ghost predicate Became(expected: Result<State, ErrorKind>, refused: Option<ErrorKind>)
      reads this
    {
      match expected
      case Err(kind) => refused == Some(kind)
      case Ok(next) => refused == None && Current() == next
    }

    constructor (env: Env)
      ensures Current() == Initial && this.env == env
    {
      this.env := env;
      id, text, reasoning, tools := None, "", "", [];
      finish, usage, hasUsage, bytes := None, map[], false, 0;
    }

    /** Charges the budget; once over it, the stream has failed. */
    method Add(count: nat) returns (ok: bool)
      modifies this`bytes
      ensures bytes == old(bytes) + count
      ensures ok == (bytes <= env.maxOutput)
    {
      bytes := bytes + count;
      ok := bytes <= env.maxOutput;
    }

    /** Makes room for the fragment's index. */
    method Declare(call: Json) returns (ok: bool)
      modifies this`tools
      ensures ok == Declared(env, old(tools), call).Some?
      ensures ok ==> Declared(env, old(tools), call) == Some(tools) && IndexOf(call).value < |tools|
    {
      var i := IndexOf(call);
      if i.None? {
        return false;
      }
      if i.value >= |tools| {
        if |tools| >= env.maxItems || i.value != |tools| {
          return false;
        }
        tools := tools + [Tool(None, "", "")];
      }
      ok := true;
    }

    /** Another call has the id. */
    method Taken(i: nat, incoming: string) returns (taken: bool)
      ensures taken == IdElsewhere(tools, i, Some(incoming))
    {
      var j := 0;
      while j < |tools|
        invariant 0 <= j <= |tools|
        invariant forall k :: 0 <= k < j && k != i ==> tools[k].id != Some(incoming)
      {
        if j != i && tools[j].id == Some(incoming) {
          return true;
        }
        j := j + 1;
      }
      taken := false;
    }

    /** The id of a fragment: new, repeated, or refused. */
    method TakeCallId(i: nat, incoming: Option<string>) returns (ok: bool)
      requires i < |tools| && bytes <= env.maxOutput
      modifies this`tools, this`bytes
      ensures var was := old(tools[i]);
              var cost := if incoming.Some? && was.id.None? then |incoming.value| else 0;
              && ok == (!IdElsewhere(old(tools), i, incoming) && !IdChanged(was, incoming) && old(bytes) + cost <= env.maxOutput)
              && (ok ==> bytes == old(bytes) + cost
                         && tools == old(tools)[i := was.(id := if was.id.Some? then was.id else incoming)])
    {
      if incoming.None? {
        return true;
      }
      var taken := Taken(i, incoming.value);
      if taken {
        return false;
      }
      var tool := tools[i];
      if tool.id.Some? {
        return tool.id == incoming;
      }
      ok := Add(|incoming.value|);
      tools := tools[i := tool.(id := incoming)];
    }

    method Fragment(call: Json) returns (refused: Option<ErrorKind>)
      requires bytes <= env.maxOutput
      modifies this
      ensures Became(TakeCall(env, old(Current()), call), refused)
      ensures refused.None? ==> bytes <= env.maxOutput
    {
      var declared := Declare(call);
      if !declared || !WellTyped(call) {
        return Some(Undecodable);
      }
      var i := IndexOf(call).value;
      ghost var was := tools[i];
      var ok := TakeCallId(i, StrOf(call, "id"));
      if !ok {
        return Some(Undecodable);
      }
      var name, arguments := TextIn(CallFunction(call), "name"), TextIn(CallFunction(call), "arguments");
      ok := Add(|name|);
      if !ok {
        return Some(Undecodable);
      }
      ok := Add(|arguments|);
      if !ok {
        return Some(Undecodable);
      }
      var tool := tools[i];
      tools := tools[i := tool.(name := tool.name + name, arguments := tool.arguments + arguments)];
      assert tools[i] == Extended(was, call);
      refused := None;
    }

    method Fragments(calls: seq<Json>, out: seq<StreamDelta>) returns (result: Result<seq<StreamDelta>, ErrorKind>)
      requires bytes <= env.maxOutput
      modifies this
      ensures Answers(TakeCalls(env, old(Current()), calls, out), result)
      ensures result.Ok? ==> bytes <= env.maxOutput
    {
      var deltas, k := out, 0;
      ghost var whole := TakeCalls(env, Current(), calls, out);
      assert calls[0..] == calls;
      while k < |calls|
        invariant 0 <= k <= |calls| && bytes <= env.maxOutput
        invariant TakeCalls(env, Current(), calls[k..], deltas) == whole
      {
        assert calls[k..][1..] == calls[k + 1..];
        var refused := Fragment(calls[k]);
        if refused.Some? {
          return Err(refused.value);
        }
        deltas := deltas + [CallDelta(calls[k])];
        if |deltas| > env.maxPending {
          return Err(Undecodable);
        }
        k := k + 1;
      }
      result := Ok(deltas);
    }

    method ResponseId(v: Json) returns (refused: Option<ErrorKind>)
      requires bytes <= env.maxOutput
      modifies this`id, this`bytes
      ensures Became(TakeId(env, old(Current()), v), refused)
      ensures refused.None? ==> bytes <= env.maxOutput
    {
      var incoming := Get(v, "id");
      if incoming.None? {
        return None;
      }
      if !incoming.value.Str? {
        return Some(Undecodable);
      }
      if id.Some? {
        return if id.value == incoming.value.s then None else Some(Undecodable);
      }
      var ok := Add(|incoming.value.s|);
      if !ok {
        return Some(Undecodable);
      }
      id := Some(incoming.value.s);
      refused := None;
    }

    method Speak(content: string, thought: string) returns (ok: bool)
      modifies this`text, this`reasoning, this`bytes
      ensures ok <==> old(bytes) + (|content| + |thought|) <= env.maxOutput
      ensures ok ==> text == old(text) + content && reasoning == old(reasoning) + thought
      ensures ok ==> bytes == old(bytes) + (|content| + |thought|)
    {
      ok := Add(|content|);
      if !ok {
        return;
      }
      text := text + content;
      ok := Add(|thought|);
      if !ok {
        return;
      }
      reasoning := reasoning + thought;
    }

    method Choice(choice: Json) returns (result: Result<seq<StreamDelta>, ErrorKind>)
      requires bytes <= env.maxOutput
      modifies this
      ensures Answers(TakeChoice(env, old(Current()), choice), result)
      ensures result.Ok? ==> bytes <= env.maxOutput
    {
      if finish.Some? || !GoodChoice(choice) {
        return Err(Undecodable);
      }
      var content, thought := TextIn(DeltaOf(choice), "content"), TextIn(DeltaOf(choice), "reasoning_content");
      ghost var spoken := Charge(env, Current().(text := text + content, reasoning := reasoning + thought), |content| + |thought|);
      var ok := Speak(content, thought);
      if !ok {
        return Err(Undecodable);
      }
      assert spoken == Ok(Current());
      result := Fragments(CallsIn(choice), if content == "" then [] else [TextDelta(content)]);
      if result.Ok? {
        var reason := GetSome(choice, "finish_reason");
        if reason.Some? {
          finish := Some(reason.value.s);
        }
      }
    }

    method UsageUpdate(v: Json, out: seq<StreamDelta>) returns (result: Result<seq<StreamDelta>, ErrorKind>)
      modifies this`usage, this`hasUsage, this`bytes
      ensures Answers(TakeUsage(env, old(Current()), v, out), result)
    {
      var update := GetSome(v, "usage");
      if update.None? {
        return Ok(out);
      }
      var merged := MergeUsage(usage, update.value);
      if merged.Err? {
        return Err(merged.error);
      }
      var ok := Add(Growth(env.codec, usage, merged.value));
      if !ok {
        return Err(Undecodable);
      }
      usage, hasUsage := merged.value, true;
      result := Ok(out + [Usage(Obj(usage))]);
    }

    method Event(v: Json) returns (result: Result<seq<StreamDelta>, ErrorKind>)
      requires bytes <= env.maxOutput
      modifies this
      ensures Answers(Step(env, old(Current()), v), result)
    {
      if GetSome(v, "error").Some? {
        return Err(ProviderReported);
      }
      var refused := ResponseId(v);
      if refused.Some? {
        return Err(refused.value);
      }
      var choices := Choices(v);
      if choices.None? || |choices.value| > 1 {
        return Err(Undecodable);
      }
      var deltas := [];
      if |choices.value| == 1 {
        result := Choice(choices.value[0]);
        if result.Err? {
          return;
        }
        deltas := result.value;
      }
      result := UsageUpdate(v, deltas);
    }

    /** The calls that go out: nothing at all if one of them cannot be sent. */
    method OutgoingCalls(cutOff: bool) returns (calls: Option<seq<Json>>)
      ensures var kept := Kept(env, tools, cutOff);
              calls == if forall i :: 0 <= i < |kept| ==> Sendable(env, kept[i]) then Some(CallsJson(kept)) else None
    {
      ghost var kept := Kept(env, tools, cutOff);
      var entries, k := [], 0;
      assert kept[..0] == [] && forall i :: 0 <= i < |kept| ==> kept[i] == tools[i];
      while k < |tools|
        invariant 0 <= k <= |tools|
        invariant forall i :: 0 <= i < k && i < |kept| ==> Sendable(env, kept[i])
        invariant entries == CallsJson(kept[..if k < |kept| then k else |kept|])
      {
        var tool := tools[k];
        var complete := env.codec.parse(tool.arguments).Some?;
        if complete || !cutOff || k + 1 != |tools| {
          assert k < |kept|;
          if tool.id.None? || tool.name == "" || !complete {
            assert !Sendable(env, kept[k]);
            return None;
          }
          assert kept[..k + 1][..k] == kept[..k];
          entries := entries + [CallJson(tool)];
        }
        k := k + 1;
      }
      assert kept[..|kept|] == kept;
      calls := Some(entries);
    }

    /** `[DONE]`: checks the calls, leaves out one the limit cut off, and parses the message. */
    method End() returns (result: Result<seq<StreamDelta>, ErrorKind>)
      modifies this`usage
      ensures Answers(AtDone(env, old(Current())), result)
    {
      if finish.None? {
        return Err(Undecodable);
      }
      var calls := OutgoingCalls(env.classify(finish.value).MaxTokens?);
      if calls.None? {
        return Err(Undecodable);
      }
      var message: Fields := map["role" := Str("assistant"), "tool_calls" := Arr(calls.value)];
      if text != "" {
        message := message["content" := Str(text)];
      }
      if reasoning != "" {
        message := message["reasoning_content" := Str(reasoning)];
      }
      var response := ResponseJson(Obj(message), finish.value, if hasUsage then Some(usage) else None);
      if hasUsage {
        usage := map[];
      }
      var output := ParseResponse(env.codec, env.classify, response);
      if output.Err? {
        return Err(output.error);
      }
      result := Ok([Done(output.value)]);
    }

    method OnSseEvent(e: Sse.SseEvent) returns (result: Result<seq<StreamDelta>, ErrorKind>)
      requires bytes <= env.maxOutput
      modifies this
      ensures Answers(OnEvent(env, old(Current()), e), result)
    {
      if AsText(e.data) == DONE {
        result := End();
      } else {
        var v := env.codec.parse(AsText(e.data));
        if v.None? {
          return Err(Undecodable);
        }
        result := Event(v.value);
      }
    }
  }
}
