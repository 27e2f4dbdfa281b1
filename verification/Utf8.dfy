/** UTF-8 well-formedness (section 4 of RFC 3629) and byte truncation (agent/agent.go). */
module Utf8 {
  import opened Types

  predicate Tail(b: Byte) { 0x80 <= b <= 0xBF }

  /** The length announced by a first byte, or 0 when it cannot start a character. */
  function Announced(b: Byte): nat {
    if b <= 0x7F then 1
    else if 0xC2 <= b <= 0xDF then 2
    else if 0xE0 <= b <= 0xEF then 3
    else if 0xF0 <= b <= 0xF4 then 4
    else 0
  }

  /** The second bytes allowed after a first byte: no overlong forms, no surrogates, nothing above U+10FFFF. */
  predicate SecondAllowed(first: Byte, b: Byte) {
    && Tail(b)
    && (first == 0xE0 ==> 0xA0 <= b)
    && (first == 0xED ==> b <= 0x9F)
    && (first == 0xF0 ==> 0x90 <= b)
    && (first == 0xF4 ==> b <= 0x8F)
  }

  predicate Complete(s: Text, n: nat)
    requires n <= |s|
  {
    && (1 < n ==> SecondAllowed(s[0], s[1]))
    && (2 < n ==> Tail(s[2]))
    && (3 < n ==> Tail(s[3]))
  }

  /** The length of the well-formed character `s` starts with, or 0 when there is none. */
  function CharLen(s: Text): (n: nat)
    ensures n <= |s| && n <= 4
  {
    if s != [] && Announced(s[0]) <= |s| && Complete(s, Announced(s[0])) then Announced(s[0]) else 0
  }

  predicate Valid(s: Text) {
    s == [] || (CharLen(s) > 0 && Valid(s[CharLen(s)..]))
  }

  function LongestValid(s: Text): (n: nat)
    ensures n <= |s| && Valid(s[..n])
    ensures forall k :: n < k <= |s| ==> !Valid(s[..k])
  {
    if Valid(s) then assert s[..|s|] == s; |s|
    else
      var n := LongestValid(s[..|s| - 1]);
      assert s[..|s| - 1][..n] == s[..n];
      assert forall k :: n < k < |s| ==> s[..|s| - 1][..k] == s[..k];
      assert s[..|s|] == s;
      n
  }

  const TRUNCATED := Ascii("\n\n[tool result truncated: too large]")

  function Truncated(value: Text, maxBytes: int): Text {
    if maxBytes <= 0 || |value| <= maxBytes then value
    else value[..LongestValid(value[..maxBytes])] + TRUNCATED
  }

  method TruncateUTF8(value: Text, maxBytes: int) returns (r: Text)
    ensures r == Truncated(value, maxBytes)
  {
    if maxBytes <= 0 || |value| <= maxBytes { return value; }
    var kept := value[..maxBytes];
    while kept != [] && !Valid(kept)
      invariant |kept| <= maxBytes && kept == value[..|kept|]
      invariant LongestValid(kept) == LongestValid(value[..maxBytes])
    {
      kept := kept[..|kept| - 1];
    }
    assert kept == kept[..|kept|];
    return kept + TRUNCATED;
  }

  lemma CharLenLocal(s: Text, n: nat)
    requires 0 < CharLen(s) <= n <= |s|
    ensures CharLen(s[..n]) == CharLen(s)
  {}

  /** A well-formed text has a character boundary in every window of four bytes. */
  lemma {:induction false} Boundary(s: Text, n: nat) returns (k: nat)
    requires Valid(s) && n <= |s|
    ensures k <= n <= k + 3 && Valid(s[..k])
    decreases |s|
  {
    var c := CharLen(s);
    if n < c || n == 0 {
      k := 0;
    } else {
      var k' := Boundary(s[c..], n - c);
      k := c + k';
      CharLenLocal(s, k);
      assert s[..k][c..] == s[c..][..k'];
    }
  }

  /** Truncation keeps the longest well-formed prefix within the limit; on well-formed text it
      drops at most three bytes more than the limit asks for. */
  lemma TruncationIsTight(value: Text, maxBytes: nat)
    requires 0 < maxBytes < |value|
    ensures exists n: nat ::
              && n <= maxBytes
              && Truncated(value, maxBytes) == value[..n] + TRUNCATED
              && Valid(value[..n])
              && (forall k :: n < k <= maxBytes ==> !Valid(value[..k]))
              && (Valid(value) ==> maxBytes <= n + 3)
  {
    var cut := value[..maxBytes];
    var n := LongestValid(cut);
    forall k | 0 <= k <= maxBytes ensures cut[..k] == value[..k] {}
    if Valid(value) {
      var k := Boundary(value, maxBytes);
      assert !(n < k <= |cut|);
    }
  }

  lemma CharLenExtends(a: Text, b: Text)
    requires 0 < CharLen(a)
    ensures CharLen(a) <= |a| && CharLen(a + b) == CharLen(a)
  {
    assert forall i :: 0 <= i < |a| ==> (a + b)[i] == a[i];
  }

  lemma ValidCons(c: Text, rest: Text)
    requires 0 < CharLen(c) == |c| && Valid(rest)
    ensures Valid(c + rest)
  {
    CharLenExtends(c, rest);
    assert (c + rest)[|c|..] == rest;
  }

  lemma ValidUncons(s: Text) returns (c: Text, rest: Text)
    requires Valid(s) && s != []
    ensures s == c + rest && 0 < CharLen(c) == |c| && Valid(rest)
  {
    c, rest := s[..CharLen(s)], s[CharLen(s)..];
    CharLenLocal(s, CharLen(s));
  }

  lemma {:induction false} ValidAppend(a: Text, b: Text)
    requires Valid(a) && Valid(b)
    ensures Valid(a + b)
    decreases |a|
  {
    if a == [] {
      assert a + b == b;
    } else {
      var c, rest := ValidUncons(a);
      ValidAppend(rest, b);
      ValidCons(c, rest + b);
      Regroup(c, rest, b);
    }
  }

  lemma {:induction false} AsciiValid(s: Text)
    requires forall i :: 0 <= i < |s| ==> s[i] <= 0x7F
    ensures Valid(s)
    decreases |s|
  {
    if s != [] { AsciiValid(s[1..]); }
  }

  /** Texts that truncation leaves alone: those that fit, and those already cut exactly at the limit. */
  predicate Settled(value: Text, maxBytes: nat) {
    |value| <= maxBytes || (Valid(value[..maxBytes]) && value[maxBytes..] == TRUNCATED)
  }

  lemma TruncationSettles(value: Text, maxBytes: nat)
    requires 0 < maxBytes
    ensures Truncated(value, maxBytes) == value <==> Settled(value, maxBytes)
  {
    if maxBytes < |value| {
      var cut := value[..maxBytes];
      var n := LongestValid(cut);
      assert cut[..n] == value[..n] && cut[..|cut|] == cut;
      if Truncated(value, maxBytes) == value {
        assert value[n..] == TRUNCATED;
        var mid := TRUNCATED[..maxBytes - n];
        AsciiValid(mid);
        ValidAppend(value[..n], mid);
        assert value[..n] + mid == cut;
      }
    }
  }

  // ---------------------------------------------------------------- what well-formed texts encode

  /** The Unicode scalar values: every code point but the surrogates. */
  predicate IsScalar(cp: int) { 0 <= cp <= 0x10FFFF && !(0xD800 <= cp <= 0xDFFF) }

  function TailByte(n: nat): Byte { (0x80 + n % 64) as Byte }

  /** The bytes of one scalar value (section 3 of RFC 3629). */
  function Encoded(cp: int): (s: Text)
    requires IsScalar(cp)
    ensures s != []
  {
    if cp < 0x80 then [cp as Byte]
    else if cp < 0x800 then [(0xC0 + cp / 64) as Byte, TailByte(cp)]
    else if cp < 0x10000 then [(0xE0 + cp / 4096) as Byte, TailByte(cp / 64), TailByte(cp)]
    else [(0xF0 + cp / 262144) as Byte, TailByte(cp / 4096), TailByte(cp / 64), TailByte(cp)]
  }

  function EncodedAll(cps: seq<int>): Text
    requires forall i :: 0 <= i < |cps| ==> IsScalar(cps[i])
  {
    if cps == [] then [] else Encoded(cps[0]) + EncodedAll(cps[1..])
  }

  lemma EncodedIsChar(cp: int)
    requires IsScalar(cp)
    ensures CharLen(Encoded(cp)) == |Encoded(cp)|
  {}

  lemma {:induction false} EncodedIsValid(cps: seq<int>)
    requires forall i :: 0 <= i < |cps| ==> IsScalar(cps[i])
    ensures Valid(EncodedAll(cps))
    decreases |cps|
  {
    if cps != [] {
      EncodedIsChar(cps[0]);
      EncodedIsValid(cps[1..]);
      ValidCons(Encoded(cps[0]), EncodedAll(cps[1..]));
    }
  }

  lemma Split64(high: nat, low: nat)
    requires low < 64
    ensures (high * 64 + low) / 64 == high && (high * 64 + low) % 64 == low
  {}

  lemma Decoded2(c: Text) returns (cp: int)
    requires CharLen(c) == |c| == 2
    ensures IsScalar(cp) && Encoded(cp) == c
  {
    var a, b := c[0] as int - 0xC0, c[1] as int - 0x80;
    cp := a * 64 + b;
    Split64(a, b);
  }

  lemma Decoded3(c: Text) returns (cp: int)
    requires CharLen(c) == |c| == 3
    ensures IsScalar(cp) && Encoded(cp) == c
  {
    var a, b, d := c[0] as int - 0xE0, c[1] as int - 0x80, c[2] as int - 0x80;
    var high := a * 64 + b;
    cp := high * 64 + d;
    Split64(a, b);
    Split64(high, d);
    assert cp / 4096 == a;
  }

  lemma Decoded4(c: Text) returns (cp: int)
    requires CharLen(c) == |c| == 4
    ensures IsScalar(cp) && Encoded(cp) == c
  {
    var a, b, d, e := c[0] as int - 0xF0, c[1] as int - 0x80, c[2] as int - 0x80, c[3] as int - 0x80;
    var high := a * 64 + b;
    var mid := high * 64 + d;
    cp := mid * 64 + e;
    Split64(a, b);
    Split64(high, d);
    Split64(mid, e);
    assert cp / 4096 == high && cp / 262144 == a;
    assert 0x10000 <= cp <= 0x10FFFF;
  }

  /** A well-formed character is the encoding of a scalar value. */
  lemma Decoded(c: Text) returns (cp: int)
    requires 0 < CharLen(c) == |c|
    ensures IsScalar(cp) && Encoded(cp) == c
  {
    if |c| == 1 { cp := c[0] as int; }
    else if |c| == 2 { cp := Decoded2(c); }
    else if |c| == 3 { cp := Decoded3(c); }
    else { cp := Decoded4(c); }
  }

  lemma {:induction false} ValidIsEncoded(s: Text) returns (cps: seq<int>)
    requires Valid(s)
    ensures (forall i :: 0 <= i < |cps| ==> IsScalar(cps[i])) && EncodedAll(cps) == s
    decreases |s|
  {
    cps := [];
    if s != [] {
      var c, rest := ValidUncons(s);
      var cp := Decoded(c);
      var more := ValidIsEncoded(rest);
      cps := [cp] + more;
      assert cps[1..] == more;
    }
  }

  /** Well-formed texts are exactly the encodings of sequences of scalar values. */
  lemma ValidIffEncoded(s: Text)
    ensures Valid(s) <==>
              exists cps: seq<int> :: (forall i :: 0 <= i < |cps| ==> IsScalar(cps[i])) && EncodedAll(cps) == s
  {
    if Valid(s) {
      var cps := ValidIsEncoded(s);
    }
    if cps: seq<int> :| (forall i :: 0 <= i < |cps| ==> IsScalar(cps[i])) && EncodedAll(cps) == s {
      EncodedIsValid(cps);
    }
  }
}
