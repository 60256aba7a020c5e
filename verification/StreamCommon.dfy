/** Limits, usage merging and text conversion shared by the stream assemblers. */
module StreamCommon {
  import opened Wrappers
  import opened Json
  import opened Model
  import Utf8

  /**
   What an assembler is given: the JSON library (with the order in which it lists an object's
   members), the stop-reason table, and the limits on retained output and items.
   */
  datatype Env = Env(codec: Codec, order: Fields -> seq<string>, classify: string -> StopReason,
                     maxOutput: nat, maxItems: nat, maxPending: nat)

  /** Text of an event, byte for byte. */
  function AsText(b: Utf8.Bytes): (s: string)
    ensures |s| == |b|
  {
    seq(|b|, i requires 0 <= i < |b| => b[i] as char)
  }

  // -- usage ------------------------------------------------------------------------

  const COUNTS: seq<string> := [
    "input_tokens", "output_tokens", "prompt_tokens", "completion_tokens",
    "cache_read_input_tokens", "cache_creation_input_tokens", "prompt_cache_hit_tokens", "reasoning_tokens"]

  const DETAILS: seq<string> := [
    "prompt_tokens_details", "completion_tokens_details", "input_tokens_details", "output_tokens_details"]

  const DETAIL_COUNTS: seq<string> := ["cached_tokens", "cache_write_tokens", "reasoning_tokens", "thinking_tokens"]

  /** Later counts replace earlier ones; a null or absent count leaves the old one. */
  function MergeCounts(target: Fields, update: Json, keys: seq<string>): Result<Fields, ErrorKind>
    decreases |keys|
  {
    if keys == [] then Ok(target)
    else
      var value := GetSome(update, keys[0]);
      if value.None? then MergeCounts(target, update, keys[1..])
      else if AsU64(value).None? then Err(Undecodable)
      else MergeCounts(target[keys[0] := value.value], update, keys[1..])
  }

  function DetailOf(target: Fields, key: string): Fields {
    if key in target && target[key].Obj? then target[key].fields else map[]
  }

  function MergeDetails(target: Fields, update: Json, keys: seq<string>): Result<Fields, ErrorKind>
    decreases |keys|
  {
    if keys == [] then Ok(target)
    else
      var value := GetSome(update, keys[0]);
      if value.None? then MergeDetails(target, update, keys[1..])
      else if !value.value.Obj? then Err(Undecodable)
      else
        var merged :- MergeCounts(DetailOf(target, keys[0]), value.value, DETAIL_COUNTS);
        MergeDetails(target[keys[0] := Obj(merged)], update, keys[1..])
  }

  function MergeUsage(target: Fields, update: Json): Result<Fields, ErrorKind> {
    if !update.Obj? then Err(Undecodable)
    else
      var counted :- MergeCounts(target, update, COUNTS);
      MergeDetails(counted, update, DETAILS)
  }

  /** How much the serialized usage grew. */
  function Growth(codec: Codec, before: Fields, after: Fields): nat {
    var was, now := Size(codec, Obj(before)), Size(codec, Obj(after));
    if now > was then now - was else 0
  }
}
