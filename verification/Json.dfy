/**
 JSON values as the translation layer sees them. A `string` stands for the UTF-8 bytes of a
 text, one element per byte, so its length is the byte length the limits count. A number with a
 fraction stands for its bit pattern, of which there are no more than there are texts.
 */
module Json {
  import opened Wrappers

  datatype Json =
    | Null
    | Bool(b: bool)
    | Int(n: int)
    | Float(bits: nat)
    | Str(s: string)
    | Arr(items: seq<Json>)
    | Obj(fields: map<string, Json>)

  type Fields = map<string, Json>

  const MAX_U64: int := 0xFFFF_FFFF_FFFF_FFFF

  /** The member of an object; nothing for any other value. */
  function Get(v: Json, key: string): Option<Json> {
    if v.Obj? && key in v.fields then Some(v.fields[key]) else None
  }

  /** A member that is present and not null. */
  function GetSome(v: Json, key: string): Option<Json> {
    var m := Get(v, key);
    if m == Some(Null) then None else m
  }

  function AsStr(v: Option<Json>): Option<string> {
    if v.Some? && v.value.Str? then Some(v.value.s) else None
  }

  function AsU64(v: Option<Json>): Option<nat> {
    if v.Some? && v.value.Int? && 0 <= v.value.n <= MAX_U64 then Some(v.value.n) else None
  }

  function StrOf(v: Json, key: string): Option<string> {
    AsStr(Get(v, key))
  }

  /** A string member, or nothing said. */
  function TextIn(v: Json, key: string): string {
    var s := StrOf(v, key);
    if s.Some? then s.value else ""
  }

  predicate IsObj(v: Option<Json>) {
    v.Some? && v.value.Obj?
  }

  /** JSON text is a library: a printer and a parser. */
  datatype Codec = Codec(parse: string -> Option<Json>, print_: Json -> string)

  /** The parser reads back what the printer writes for this value. */
  predicate ReadsBack(codec: Codec, v: Json) {
    codec.parse(codec.print_(v)) == Some(v)
  }

  ghost predicate Lawful(codec: Codec) {
    forall v :: ReadsBack(codec, v)
  }

  function Size(codec: Codec, v: Json): nat {
    |codec.print_(v)|
  }
}
