/** A printer that loses nothing, and so a codec whose parser reads back every value. */
module LawfulCodec {
  import opened Wrappers
  import opened Sequences
  import opened Json

  // -- a printer --------------------------------------------------------------------------------

  /** A number in unary, closed by a zero. */
  function Count(n: nat): string {
    if n == 0 then "0" else "1" + Count(n - 1)
  }

  /** A text after its length, so that where it ends can be told. */
  function Sized(s: string): string {
    Count(|s|) + s
  }

  ghost function Pick(keys: set<string>): (key: string)
    requires keys != {}
    ensures key in keys
  {
    var key :| key in keys;
    key
  }

  /** The character a value's text begins with. */
  function Mark(v: Json): char {
    match v
    case Null => 'n'
    case Bool(b) => if b then 't' else 'f'
    case Int(n) => if n >= 0 then 'p' else 'm'
    case Float(_) => 'r'
    case Str(_) => 's'
    case Arr(_) => 'a'
    case Obj(_) => 'o'
  }

  ghost function Printed(v: Json): string
    decreases v, 2
  {
    [Mark(v)] + Body(v)
  }

  ghost function Body(v: Json): string
    decreases v, 1
  {
    match v
    case Null => ""
    case Bool(_) => ""
    case Int(n) => Count(if n >= 0 then n else -n)
    case Float(bits) => Count(bits)
    case Str(s) => Sized(s)
    case Arr(items) => Count(|items|) + PrintedItems(v, 0)
    case Obj(fields) => Count(|fields.Keys|) + PrintedFields(v, fields.Keys)
  }

  ghost function PrintedItems(v: Json, i: nat): string
    requires v.Arr? && i <= |v.items|
    decreases v, 0, |v.items| - i
  {
    if i == |v.items| then "" else Printed(v.items[i]) + PrintedItems(v, i + 1)
  }

  ghost function PrintedFields(v: Json, keys: set<string>): string
    requires v.Obj? && keys <= v.fields.Keys
    decreases v, 0, |keys|
  {
    if keys == {} then ""
    else
      var key := Pick(keys);
      Sized(key) + (Printed(v.fields[key]) + PrintedFields(v, keys - {key}))
  }

  // -- nothing is lost --------------------------------------------------------------------------

  /** Two texts that start alike and then differ in what is left. */
  lemma SameHead<T>(x: seq<T>, a: seq<T>, y: seq<T>, b: seq<T>)
    requires |x| == |y| && x + a == y + b
    ensures x == y && a == b
  {
    assert x == (x + a)[..|x|] && y == (y + b)[..|y|];
    assert a == (x + a)[|x|..] && b == (y + b)[|y|..];
  }

  lemma {:induction false} CountTells(n: nat, m: nat, a: string, b: string)
    requires Count(n) + a == Count(m) + b
    ensures n == m && a == b
    decreases n
  {
    assert (Count(n) + a)[0] == Count(n)[0] && (Count(m) + b)[0] == Count(m)[0];
    if n == 0 || m == 0 {
      SameHead("0", a, "0", b);
    } else {
      Associate("1", Count(n - 1), a);
      Associate("1", Count(m - 1), b);
      SameHead("1", Count(n - 1) + a, "1", Count(m - 1) + b);
      CountTells(n - 1, m - 1, a, b);
    }
  }

  lemma {:induction false} SizedTells(s: string, t: string, a: string, b: string)
    requires Sized(s) + a == Sized(t) + b
    ensures s == t && a == b
  {
    Associate(Count(|s|), s, a);
    Associate(Count(|t|), t, b);
    CountTells(|s|, |t|, s + a, t + b);
    SameHead(s, a, t, b);
  }

  /** What is printed says which value it is, and where its text ends. */
  lemma {:induction false} PrintedTells(v: Json, w: Json, a: string, b: string)
    requires Printed(v) + a == Printed(w) + b
    ensures v == w && a == b
    decreases v, 2
  {
    Associate([Mark(v)], Body(v), a);
    Associate([Mark(w)], Body(w), b);
    SameHead([Mark(v)], Body(v) + a, [Mark(w)], Body(w) + b);
    BodyTells(v, w, a, b);
  }

  lemma {:induction false} BodyTells(v: Json, w: Json, a: string, b: string)
    requires [Mark(v)] == [Mark(w)] && Body(v) + a == Body(w) + b
    ensures v == w && a == b
    decreases v, 1
  {
    assert Mark(v) == [Mark(v)][0] && Mark(w) == [Mark(w)][0];
    match v
    case Null => SameHead("", a, "", b);
    case Bool(_) => SameHead("", a, "", b);
    case Int(n) => CountTells(if n >= 0 then n else -n, if w.n >= 0 then w.n else -w.n, a, b);
    case Float(bits) => CountTells(bits, w.bits, a, b);
    case Str(s) => SizedTells(s, w.s, a, b);
    case Arr(_) => ArrTells(v, w, a, b);
    case Obj(_) => ObjTells(v, w, a, b);
  }

  lemma {:induction false} ArrTells(v: Json, w: Json, a: string, b: string)
    requires v.Arr? && w.Arr? && Body(v) + a == Body(w) + b
    ensures v == w && a == b
    decreases v, 0, |v.items| + 1
  {
    Associate(Count(|v.items|), PrintedItems(v, 0), a);
    Associate(Count(|w.items|), PrintedItems(w, 0), b);
    CountTells(|v.items|, |w.items|, PrintedItems(v, 0) + a, PrintedItems(w, 0) + b);
    ItemsTell(v, w, 0, a, b);
  }

  lemma {:induction false} ObjTells(v: Json, w: Json, a: string, b: string)
    requires v.Obj? && w.Obj? && Body(v) + a == Body(w) + b
    ensures v == w && a == b
    decreases v, 0, |v.fields.Keys| + 1
  {
    var keys, others := v.fields.Keys, w.fields.Keys;
    Associate(Count(|keys|), PrintedFields(v, keys), a);
    Associate(Count(|others|), PrintedFields(w, others), b);
    CountTells(|keys|, |others|, PrintedFields(v, keys) + a, PrintedFields(w, others) + b);
    FieldsTell(v, w, keys, others, a, b);
    assert v.fields == w.fields;
  }

  lemma {:induction false} ItemsTell(v: Json, w: Json, i: nat, a: string, b: string)
    requires v.Arr? && w.Arr? && |v.items| == |w.items| && i <= |v.items|
    requires PrintedItems(v, i) + a == PrintedItems(w, i) + b
    ensures a == b && forall k :: i <= k < |v.items| ==> v.items[k] == w.items[k]
    decreases v, 0, |v.items| - i
  {
    if i == |v.items| {
      NoneFirst(a);
      NoneFirst(b);
    } else {
      Associate(Printed(v.items[i]), PrintedItems(v, i + 1), a);
      Associate(Printed(w.items[i]), PrintedItems(w, i + 1), b);
      PrintedTells(v.items[i], w.items[i], PrintedItems(v, i + 1) + a, PrintedItems(w, i + 1) + b);
      ItemsTell(v, w, i + 1, a, b);
    }
  }

  lemma {:induction false} FieldsTell(v: Json, w: Json, keys: set<string>, others: set<string>, a: string, b: string)
    requires v.Obj? && w.Obj? && keys <= v.fields.Keys && others <= w.fields.Keys && |keys| == |others|
    requires PrintedFields(v, keys) + a == PrintedFields(w, others) + b
    ensures a == b && keys == others && forall key :: key in keys ==> v.fields[key] == w.fields[key]
    decreases v, 0, |keys|
  {
    if keys == {} {
      NoneFirst(a);
      NoneFirst(b);
    } else {
      assert others != {};
      var key, other := Pick(keys), Pick(others);
      var x, y := PrintedFields(v, keys - {key}), PrintedFields(w, others - {other});
      FieldFirst(v, keys, a);
      FieldFirst(w, others, b);
      SizedTells(key, other, Printed(v.fields[key]) + (x + a), Printed(w.fields[other]) + (y + b));
      PrintedTells(v.fields[key], w.fields[other], x + a, y + b);
      FieldsTell(v, w, keys - {key}, others - {other}, a, b);
      assert keys == keys - {key} + {key} && others == others - {other} + {other};
    }
  }

  /** The picked field, then the rest of the fields and whatever follows. */
  lemma {:induction false} FieldFirst(v: Json, keys: set<string>, a: string)
    requires v.Obj? && keys <= v.fields.Keys && keys != {}
    ensures var key := Pick(keys);
            PrintedFields(v, keys) + a ==
            Sized(key) + (Printed(v.fields[key]) + (PrintedFields(v, keys - {key}) + a))
  {
    var key := Pick(keys);
    var rest := PrintedFields(v, keys - {key});
    Associate(Sized(key), Printed(v.fields[key]) + rest, a);
    Associate(Printed(v.fields[key]), rest, a);
  }

  // -- the codec --------------------------------------------------------------------------------

  ghost function Parsed(s: string): Option<Json> {
    if exists v :: Printed(v) == s then
      var v :| Printed(v) == s;
      Some(v)
    else None
  }

  /** Some printer and parser read back every value. */
  lemma LawfulCodecExists()
    ensures exists codec :: Lawful(codec)
  {
    var codec := Codec(Parsed, Printed);
    forall v ensures ReadsBack(codec, v) {
      var w :| Printed(w) == Printed(v) && Parsed(Printed(v)) == Some(w);
      PrintedTells(v, w, "", "");
    }
    assert Lawful(codec);
  }
}
