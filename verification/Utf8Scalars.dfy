/** Valid UTF-8 is exactly what encoding Unicode scalar values yields, by the arithmetic of section 3 of RFC 3629. */
module Utf8Scalars {
  import opened Utf8
  import opened Sequences

  /** Any code point but a surrogate. */
  predicate IsScalar(c: nat) {
    c <= 0x10FFFF && !(0xD800 <= c <= 0xDFFF)
  }

  /** A byte that carries six bits. */
  function Tail(n: nat): byte {
    (0x80 + n % 64) as byte
  }

  /** A character's bytes: the bits of its number, six to each byte after the first. */
  function Encoding(c: nat): Bytes
    requires c <= 0x10FFFF
  {
    if c < 0x80 then [c as byte]
    else if c < 0x800 then [(0xC0 + c / 64) as byte, Tail(c)]
    else if c < 0x10000 then [(0xE0 + c / 4096) as byte, Tail(c / 64), Tail(c)]
    else [(0xF0 + c / 262144) as byte, Tail(c / 4096), Tail(c / 64), Tail(c)]
  }

  predicate AreScalars(cs: seq<nat>) {
    forall k :: 0 <= k < |cs| ==> IsScalar(cs[k])
  }

  function Encoded(cs: seq<nat>): Bytes
    requires AreScalars(cs)
  {
    if cs == [] then [] else Encoding(cs[0]) + Encoded(cs[1..])
  }

  /** The six bits of a byte after the first. */
  function Bits(b: byte): int {
    b as int - 0x80
  }

  lemma TailBits(n: nat, b: byte)
    requires IsTail(b)
    ensures 0 <= Bits(b) < 64 && Tail(n * 64 + Bits(b)) == b && (n * 64 + Bits(b)) / 64 == n
  {
  }

  lemma ThreeLead(c: nat)
    requires 0x800 <= c < 0x10000 && IsScalar(c)
    ensures LeadsThree((0xE0 + c / 4096) as byte, Tail(c / 64))
  {
    var high := c / 64;
    assert c / 4096 == high / 64;
  }

  lemma FourLead(c: nat)
    requires 0x10000 <= c <= 0x10FFFF
    ensures LeadsFour((0xF0 + c / 262144) as byte, Tail(c / 4096))
  {
    var high := c / 4096;
    assert c / 262144 == high / 64;
  }

  lemma TailIsTail(n: nat)
    ensures IsTail(Tail(n))
  {
  }

  lemma {:induction false} EncodingLeads(c: nat, rest: Bytes)
    requires IsScalar(c)
    ensures CharLength(Encoding(c) + rest) == |Encoding(c)|
  {
    TailIsTail(c);
    TailIsTail(c / 64);
    if 0x800 <= c < 0x10000 {
      ThreeLead(c);
    } else if 0x10000 <= c {
      FourLead(c);
    }
  }

  lemma TwoBytes(a: byte, b: byte)
    requires 0xC2 <= a <= 0xDF && IsTail(b)
    ensures exists c :: IsScalar(c) && [a, b] == Encoding(c)
  {
    var c := (a as int - 0xC0) * 64 + Bits(b);
    TailBits(a as int - 0xC0, b);
    assert [a, b] == Encoding(c);
  }

  lemma ThreeBytes(a: byte, b: byte, d: byte)
    requires LeadsThree(a, b) && IsTail(d)
    ensures exists c :: IsScalar(c) && [a, b, d] == Encoding(c)
  {
    var high := (a as int - 0xE0) * 64 + Bits(b);
    TailBits(a as int - 0xE0, b);
    TailBits(high, d);
    var c := high * 64 + Bits(d);
    assert c / 4096 == a as int - 0xE0;
    assert [a, b, d] == Encoding(c);
  }

  lemma FourBytes(a: byte, b: byte, d: byte, e: byte)
    requires LeadsFour(a, b) && IsTail(d) && IsTail(e)
    ensures exists c :: IsScalar(c) && [a, b, d, e] == Encoding(c)
  {
    var top := (a as int - 0xF0) * 64 + Bits(b);
    TailBits(a as int - 0xF0, b);
    var high := top * 64 + Bits(d);
    TailBits(top, d);
    TailBits(high, e);
    var c := high * 64 + Bits(e);
    assert c / 4096 == top && c / 262144 == a as int - 0xF0;
    assert [a, b, d, e] == Encoding(c);
  }

  lemma CharIsEncoding(s: Bytes)
    requires CharLength(s) > 0
    ensures exists c :: IsScalar(c) && s[..CharLength(s)] == Encoding(c)
  {
    var n := CharLength(s);
    if n == 1 {
      assert IsScalar(s[0] as int) && s[..1] == Encoding(s[0] as int);
    } else if n == 2 {
      TwoBytes(s[0], s[1]);
      assert s[..2] == [s[0], s[1]];
    } else if n == 3 {
      ThreeBytes(s[0], s[1], s[2]);
      assert s[..3] == [s[0], s[1], s[2]];
    } else {
      FourBytes(s[0], s[1], s[2], s[3]);
      assert s[..4] == [s[0], s[1], s[2], s[3]];
    }
  }

  lemma {:induction false} EncodedIsValid(cs: seq<nat>)
    requires AreScalars(cs)
    ensures Valid(Encoded(cs))
    decreases |cs|
  {
    if cs != [] {
      var rest := Encoded(cs[1..]);
      EncodingLeads(cs[0], rest);
      EncodedIsValid(cs[1..]);
      assert (Encoding(cs[0]) + rest)[|Encoding(cs[0])|..] == rest;
    }
  }

  lemma {:induction false} ValidIsEncoded(s: Bytes) returns (cs: seq<nat>)
    requires Valid(s)
    ensures AreScalars(cs) && Encoded(cs) == s
    decreases |s|
  {
    if s == [] {
      cs := [];
    } else {
      var n := CharLength(s);
      CharIsEncoding(s);
      var c :| IsScalar(c) && s[..n] == Encoding(c);
      var rest := ValidIsEncoded(s[n..]);
      cs := [c] + rest;
      assert cs[1..] == rest;
      Halves(s, n);
    }
  }

  /** The check accepts exactly the encodings of sequences of scalar values. */
  lemma {:induction false} ValidExactly(s: Bytes)
    ensures Valid(s) <==> exists cs :: AreScalars(cs) && Encoded(cs) == s
  {
    if Valid(s) {
      var cs := ValidIsEncoded(s);
      assert AreScalars(cs) && Encoded(cs) == s;
    }
    if exists cs :: AreScalars(cs) && Encoded(cs) == s {
      var cs :| AreScalars(cs) && Encoded(cs) == s;
      EncodedIsValid(cs);
    }
  }
}
