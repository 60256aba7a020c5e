/** The assembler as an object that updates its fields event by event, proved against the machine. */
module AnthropicAssembler {
  import opened Wrappers
  import opened Json
  import opened Model
  import opened AnthropicParse
  import opened StreamCommon
  import opened AnthropicStream

  lemma {:induction false} FieldsCostConcat(env: Env, fields: Fields, a: seq<string>, b: seq<string>, known: set<string>)
    ensures FieldsCost(env, fields, a + b, known) == FieldsCost(env, fields, a, known) + FieldsCost(env, fields, b, known)
    decreases |a|
  {
    if a == [] {
      assert a + b == b;
    } else {
      assert (a + b)[0] == a[0] && (a + b)[1..] == a[1..] + b;
      FieldsCostConcat(env, fields, a[1..], b, known);
    }
  }

  class Assembler {
    const env: Env
    var started: bool
    var stopped: bool
    var blocks: seq<Block>
    var tools: nat
    var stopReason: Option<string>
    var usage: Fields
    var hasUsage: bool
    var bytes: nat

    ghost function Current(): State
      reads this
    {
      State(started, stopped, blocks, tools, stopReason, usage, hasUsage, bytes)
    }

    /** The object did what the machine does. */
    ghost predicate Answers(expected: Reaction, result: Result<seq<StreamDelta>, ErrorKind>)
      reads this
    {
      match expected
      case Err(kind) => result == Err(kind)
      case Ok((next, deltas)) => result == Ok(deltas) && Current() == next
    }

    constructor (env: Env)
      ensures Current() == Initial && this.env == env
    {
      this.env := env;
      started, stopped, blocks, tools := false, false, [], 0;
      stopReason, usage, hasUsage, bytes := None, map[], false, 0;
    }

    /** Charges the budget; once over it, the stream has failed. */
    method Add(count: nat) returns (ok: bool)
      modifies this`bytes
      ensures bytes == old(bytes) + count
      ensures ok == (bytes <= env.maxOutput)
    {
      bytes := bytes + count;
      ok := bytes <= env.maxOutput;
    }

    /** Charges every field outside `known`. */
    method AddFields(w: Json, known: set<string>) returns (ok: bool)
      requires bytes <= env.maxOutput
      modifies this`bytes
      ensures ok ==> bytes == old(bytes) + OtherFieldsCost(env, w, known) && bytes <= env.maxOutput
      ensures !ok ==> old(bytes) + OtherFieldsCost(env, w, known) > env.maxOutput
    {
      if !w.Obj? {
        return true;
      }
      var keys, k := env.order(w.fields), 0;
      while k < |keys|
        invariant 0 <= k <= |keys|
        invariant bytes == old(bytes) + FieldsCost(env, w.fields, keys[..k], known) && bytes <= env.maxOutput
      {
        FieldsCostConcat(env, w.fields, keys[..k], [keys[k]], known);
        FieldsCostConcat(env, w.fields, keys[..k + 1], keys[k + 1..], known);
        assert keys[..k + 1] == keys[..k] + [keys[k]] && keys == keys[..k + 1] + keys[k + 1..];
        assert [keys[k]][1..] == [];
        if keys[k] !in known {
          ok := Add(FieldCost(env, w.fields, keys[k]));
          if !ok {
            return;
          }
        }
        k := k + 1;
      }
      assert keys[..k] == keys;
      ok := true;
    }

    method MergeUsageNow(update: Option<Json>) returns (result: Result<seq<StreamDelta>, ErrorKind>)
      modifies this`usage, this`hasUsage, this`bytes
      ensures Answers(TakeUsage(env, old(Current()), update), result)
    {
      if update.None? {
        return Ok([]);
      }
      var merged := MergeUsage(usage, update.value);
      if merged.Err? {
        return Err(merged.error);
      }
      var ok := Add(Growth(env.codec, usage, merged.value));
      if !ok {
        return Err(Undecodable);
      }
      usage, hasUsage := merged.value, true;
      result := Ok([Usage(Obj(usage))]);
    }

    method MessageStart(v: Json) returns (result: Result<seq<StreamDelta>, ErrorKind>)
      modifies this
      ensures Answers(OnMessageStart(env, old(Current()), v), result)
    {
      if started || !GoodMessage(Message(v)) {
        return Err(Undecodable);
      }
      started := true;
      result := MergeUsageNow(GetSome(Message(v), "usage"));
    }

    /** The checks and charges of a new block, in the order the source makes them. */
    method OpenBlock(w: Json) returns (ok: bool, deltas: seq<StreamDelta>, callIndex: Option<nat>)
      requires bytes <= env.maxOutput
      modifies this`bytes, this`tools
      ensures var tool := TypeOf(w).ToolUseBlock?;
              var allowed := Openable(w) && !(tool && IdTaken(Wires(blocks), w));
              && (ok <==> allowed && old(bytes) + OpenCost(env, w) <= env.maxOutput)
              && (ok ==> && bytes == old(bytes) + OpenCost(env, w)
                         && callIndex == (if tool then Some(old(tools)) else None)
                         && deltas == OpenDeltas(w, callIndex)
                         && tools == old(tools) + if tool then 1 else 0)
    {
      callIndex, deltas := None, [];
      var name := StrOf(w, "type");
      if name.None? {
        return false, [], None;
      }
      var charged := |name.value|;
      match TypeOf(w) {
      case TextBlock =>
        var text := StrOf(w, "text");
        if text.None? {
          return false, [], None;
        }
        charged := charged + |text.value|;
        if text.value != "" {
          deltas := [TextDelta(text.value)];
        }
      case ThinkingBlock =>
        var text := StrOf(w, "thinking");
        if text.None? || !TextOrAbsent(w, "signature") {
          return false, [], None;
        }
        charged := charged + |text.value| + |TextIn(w, "signature")|;
        if text.value != "" {
          deltas := [ReasoningDelta(text.value)];
        }
      case ToolUseBlock =>
        if !NonEmptyText(w, "id") || !NonEmptyText(w, "name") || IdTaken(Wires(blocks), w) || !IsObj(Get(w, "input")) {
          return false, [], None;
        }
        charged := charged + (|TextIn(w, "id")| + |TextIn(w, "name")|);
        callIndex := Some(tools);
        tools := tools + 1;
        deltas := [ToolCallDelta(callIndex.value, StrOf(w, "id"), StrOf(w, "name"), None)];
      case OtherBlock =>
      }
      assert charged == KnownCost(env, w);
      ok := Add(charged);
      if !ok {
        return;
      }
      ok := AddFields(w, KnownKeys(TypeOf(w)));
      if !ok {
        return;
      }
      ok := Add(InputCost(env, w));
    }

    method BlockStart(v: Json) returns (result: Result<seq<StreamDelta>, ErrorKind>)
      requires bytes <= env.maxOutput
      modifies this
      ensures Answers(OnBlockStart(env, old(Current()), v), result)
    {
      if !started || stopped || |blocks| >= env.maxItems {
        return Err(Undecodable);
      }
      var i, w := AsU64(Get(v, "index")), StartWire(v);
      if i != Some(|blocks|) {
        return Err(Undecodable);
      }
      var ok, deltas, callIndex := OpenBlock(w);
      if !ok {
        return Err(Undecodable);
      }
      blocks := blocks + [Block(w, "", false, false, false, callIndex)];
      result := Ok(deltas);
    }

    method BlockDelta(v: Json) returns (result: Result<seq<StreamDelta>, ErrorKind>)
      modifies this
      ensures Answers(OnBlockDelta(env, old(Current()), v), result)
    {
      if !started || stopped {
        return Err(Undecodable);
      }
      var index := AsU64(Get(v, "index"));
      if index.None? || index.value >= |blocks| || blocks[index.value].closed {
        return Err(Undecodable);
      }
      var i, delta := index.value, DeltaIn(v);
      var block := blocks[i];
      if !Fits(block.wire, delta) {
        return Err(Undecodable);
      }
      var ok := Add(DeltaCost(env, delta));
      if !ok {
        return Err(Undecodable);
      }
      match PieceOf(delta) {
        case InputPiece =>
          block := block.(arguments := block.arguments + PieceText(delta), sawArguments := true);
        case CitationPiece =>
          var citations := ItemsIn(block.wire, "citations");
          block := block.(wire := WithField(block.wire, "citations", Arr(citations + [CitationOf(delta)])));
        case UnknownPiece =>
        case piece =>
          var accumulated := TextIn(block.wire, PieceField(piece));
          block := block.(wire := WithField(block.wire, PieceField(piece), Str(accumulated + PieceText(delta))));
      }
      result := Ok(ApplyDeltas(blocks[i], delta));
      blocks := blocks[i := block];
    }

    method BlockStop(v: Json) returns (result: Result<seq<StreamDelta>, ErrorKind>)
      modifies this
      ensures Answers(OnBlockStop(env, old(Current()), v), result)
    {
      if !started || stopped {
        return Err(Undecodable);
      }
      var index := AsU64(Get(v, "index"));
      if index.None? || index.value >= |blocks| || blocks[index.value].closed {
        return Err(Undecodable);
      }
      var block := blocks[index.value];
      if block.sawArguments {
        var input := env.codec.parse(block.arguments);
        if input.Some? && !input.value.Obj? {
          return Err(Undecodable);
        }
        if input.Some? {
          block := block.(wire := WithField(block.wire, "input", input.value));
        } else {
          block := block.(incomplete := true);
        }
        block := block.(arguments := "");
      }
      blocks := blocks[index.value := block.(closed := true)];
      result := Ok([]);
    }

    method MessageDelta(v: Json) returns (result: Result<seq<StreamDelta>, ErrorKind>)
      modifies this
      ensures Answers(OnMessageDelta(env, old(Current()), v), result)
    {
      if !started || !AllClosed(blocks) || Get(v, "delta").None? {
        return Err(Undecodable);
      }
      var reason := GetSome(DeltaIn(v), "stop_reason");
      if reason.Some? {
        if !reason.value.Str? || (stopReason.Some? && stopReason.value != reason.value.s) {
          return Err(Undecodable);
        }
        stopReason, stopped := Some(reason.value.s), true;
      }
      result := MergeUsageNow(GetSome(v, "usage"));
    }

    method MessageStop() returns (result: Result<seq<StreamDelta>, ErrorKind>)
      modifies this
      ensures Answers(OnMessageStop(env, old(Current())), result)
    {
      if !started || !AllClosed(blocks) || stopReason.None? {
        return Err(Undecodable);
      }
      var reason, kept := stopReason.value, blocks;
      if env.classify(reason).MaxTokens? && kept != [] && kept[|kept| - 1].incomplete {
        kept := kept[..|kept| - 1];
      }
      blocks := [];
      if AnyIncomplete(kept) {
        return Err(Undecodable);
      }
      var response := BatchResponse(Wires(kept), reason, if hasUsage then Some(usage) else None);
      usage := map[];
      var output := ParseAnthropicResponse(env.classify, response);
      if output.Err? {
        return Err(output.error);
      }
      result := Ok([Done(output.value)]);
    }

    method Event(v: Json) returns (result: Result<seq<StreamDelta>, ErrorKind>)
      requires bytes <= env.maxOutput
      modifies this
      ensures Answers(Step(env, old(Current()), v), result)
    {
      var kind := KindOf(v);
      if kind.None? {
        return Err(Undecodable);
      }
      match kind.value
      case ErrorEvent =>
        result := Err(if Get(v, "error").Some? then ProviderReported else Undecodable);
      case MessageStart => result := MessageStart(v);
      case BlockStart => result := BlockStart(v);
      case BlockDelta => result := BlockDelta(v);
      case BlockStop => result := BlockStop(v);
      case MessageDelta => result := MessageDelta(v);
      case MessageStop => result := MessageStop();
      case Ping => result := Ok([]);
      case UnknownEvent => result := Ok([]);
    }
  }
}
