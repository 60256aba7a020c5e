/** UTF-8 validity, section 4 of RFC 3629. */
module Utf8 {

  newtype byte = x: int | 0 <= x < 256
  type Bytes = seq<byte>

  predicate IsTail(b: byte) {
    0x80 <= b <= 0xBF
  }

  predicate LeadsThree(first: byte, second: byte) {
    || (first == 0xE0 && 0xA0 <= second <= 0xBF)
    || (0xE1 <= first <= 0xEC && IsTail(second))
    || (first == 0xED && 0x80 <= second <= 0x9F)
    || (0xEE <= first <= 0xEF && IsTail(second))
  }

  predicate LeadsFour(first: byte, second: byte) {
    || (first == 0xF0 && 0x90 <= second <= 0xBF)
    || (0xF1 <= first <= 0xF3 && IsTail(second))
    || (first == 0xF4 && 0x80 <= second <= 0x8F)
  }

  /** Length of the character `s` starts with; zero when it starts with none. */
  function CharLength(s: Bytes): (n: nat)
    ensures n <= |s|
  {
    if |s| >= 1 && s[0] <= 0x7F then 1
    else if |s| >= 2 && 0xC2 <= s[0] <= 0xDF && IsTail(s[1]) then 2
    else if |s| >= 3 && LeadsThree(s[0], s[1]) && IsTail(s[2]) then 3
    else if |s| >= 4 && LeadsFour(s[0], s[1]) && IsTail(s[2]) && IsTail(s[3]) then 4
    else 0
  }

  predicate Valid(s: Bytes)
    decreases |s|
  {
    s == [] || (CharLength(s) > 0 && Valid(s[CharLength(s)..]))
  }

  /** An ASCII byte is never part of a longer character, so validity splits there. */
  lemma {:induction false} SplitAtAscii(a: Bytes, x: byte, b: Bytes)
    requires x < 0x80
    ensures Valid(a + [x] + b) <==> Valid(a) && Valid(b)
    decreases |a|
  {
    var s := a + [x] + b;
    if a == [] {
      assert s[1..] == b;
    } else {
      CharStopsAtAscii(a, x, b);
      var n := CharLength(a);
      if n > 0 {
        assert s[n..] == a[n..] + [x] + b;
        SplitAtAscii(a[n..], x, b);
      }
    }
  }

  lemma CharStopsAtAscii(a: Bytes, x: byte, b: Bytes)
    requires a != [] && x < 0x80
    ensures CharLength(a + [x] + b) == CharLength(a)
  {
    var s := a + [x] + b;
    assert s[0] == a[0];
    assert |a| == 1 ==> s[1] == x;
    assert |a| >= 2 ==> s[1] == a[1];
    assert |a| == 2 ==> s[2] == x;
    assert |a| >= 3 ==> s[2] == a[2];
    assert |a| == 3 ==> s[3] == x;
    assert |a| >= 4 ==> s[3] == a[3];
  }

  lemma AsciiLast(a: Bytes, x: byte)
    requires x < 0x80 && Valid(a)
    ensures Valid(a + [x])
  {
    assert Valid([x]) by {
      assert [x][1..] == [];
    }
    ValidConcat(a, [x]);
  }

  lemma AsciiFirst(s: Bytes)
    requires s != [] && s[0] < 0x80 && Valid(s)
    ensures Valid(s[1..])
  {
  }

  lemma {:induction false} ValidConcat(a: Bytes, b: Bytes)
    requires Valid(a) && Valid(b)
    ensures Valid(a + b)
    decreases |a|
  {
    if a == [] {
      assert a + b == b;
    } else {
      var n := CharLength(a);
      assert (a + b)[n..] == a[n..] + b;
      ValidConcat(a[n..], b);
    }
  }
}
