/** The validity test for text accepts exactly the encodings of Unicode scalar values, as section 3 of
    RFC 3629 defines them. */
module Utf8Proofs {
  import opened Bytes
  import opened Utf8Text

  /** A Unicode scalar value: a code point that is no surrogate. */
  type Scalar = n: nat | n < 0xD800 || 0xE000 <= n < 0x11_0000

  function EncodeScalar(c: Scalar): (s: seq<byte>)
    ensures 1 <= |s| <= 4
  {
    if c < 0x80 then [c]
    else if c < 0x800 then [0xC0 + c / 0x40, 0x80 + c % 0x40]
    else if c < 0x1_0000 then [0xE0 + c / 0x1000, 0x80 + c / 0x40 % 0x40, 0x80 + c % 0x40]
    else [0xF0 + c / 0x4_0000, 0x80 + c / 0x1000 % 0x40, 0x80 + c / 0x40 % 0x40, 0x80 + c % 0x40]
  }

  function EncodeScalars(cs: seq<Scalar>): seq<byte>
  {
    if cs == [] then [] else EncodeScalar(cs[0]) + EncodeScalars(cs[1..])
  }

  lemma ShortCharLen(c: Scalar, s: seq<byte>)
    requires c < 0x800 && EncodeScalar(c) <= s
    ensures CharLen(s) == |EncodeScalar(c)|
  {
    assert s[0] == EncodeScalar(c)[0];
    if c >= 0x80 {
      assert s[1] == EncodeScalar(c)[1];
    }
  }

  lemma MiddleCharLen(c: Scalar, s: seq<byte>)
    requires 0x800 <= c < 0x1_0000 && EncodeScalar(c) <= s
    ensures CharLen(s) == |EncodeScalar(c)|
  {
    assert s[0] == EncodeScalar(c)[0] && s[1] == EncodeScalar(c)[1] && s[2] == EncodeScalar(c)[2];
  }

  lemma LongCharLen(c: Scalar, s: seq<byte>)
    requires 0x1_0000 <= c && EncodeScalar(c) <= s
    ensures CharLen(s) == |EncodeScalar(c)|
  {
    assert s[0] == EncodeScalar(c)[0] && s[1] == EncodeScalar(c)[1];
    assert s[2] == EncodeScalar(c)[2] && s[3] == EncodeScalar(c)[3];
  }

  lemma EncodedCharLen(c: Scalar, rest: seq<byte>)
    ensures CharLen(EncodeScalar(c) + rest) == |EncodeScalar(c)|
  {
    if c < 0x800 {
      ShortCharLen(c, EncodeScalar(c) + rest);
    } else if c < 0x1_0000 {
      MiddleCharLen(c, EncodeScalar(c) + rest);
    } else {
      LongCharLen(c, EncodeScalar(c) + rest);
    }
  }

  lemma Digits(n: nat, d: nat, e: nat, f: nat)
    requires d < 0x40 && e < 0x40 && f < 0x40
    ensures (n * 0x40 + d) / 0x40 == n && (n * 0x40 + d) % 0x40 == d
    ensures (n * 0x1000 + d * 0x40 + e) / 0x1000 == n
    ensures (n * 0x4_0000 + d * 0x1000 + e * 0x40 + f) / 0x4_0000 == n
  {
  }

  lemma ThreeBytes(a: nat, b: nat, d: nat)
    requires 0xE0 <= a <= 0xEF && 0x80 <= b < 0xC0 && 0x80 <= d < 0xC0
    requires a == 0xE0 ==> b >= 0xA0
    requires a == 0xED ==> b < 0xA0
    ensures var c := (a - 0xE0) * 0x1000 + (b - 0x80) * 0x40 + (d - 0x80);
      0x800 <= c < 0x1_0000 && (c < 0xD800 || 0xE000 <= c) && EncodeScalar(c) == [a, b, d]
  {
    var x, y, z := a - 0xE0, b - 0x80, d - 0x80;
    var c := x * 0x1000 + y * 0x40 + z;
    Digits(x, y, z, 0);
    assert c == (x * 0x40 + y) * 0x40 + z;
    Digits(x * 0x40 + y, z, 0, 0);
    Digits(x, y, 0, 0);
  }

  lemma FourBytes(a: nat, b: nat, d: nat, e: nat)
    requires 0xF0 <= a <= 0xF4 && 0x80 <= b < 0xC0 && 0x80 <= d < 0xC0 && 0x80 <= e < 0xC0
    requires a == 0xF0 ==> b >= 0x90
    requires a == 0xF4 ==> b < 0x90
    ensures var c := (a - 0xF0) * 0x4_0000 + (b - 0x80) * 0x1000 + (d - 0x80) * 0x40 + (e - 0x80);
      0x1_0000 <= c < 0x11_0000 && EncodeScalar(c) == [a, b, d, e]
  {
    var w, x, y, z := a - 0xF0, b - 0x80, d - 0x80, e - 0x80;
    var c := w * 0x4_0000 + x * 0x1000 + y * 0x40 + z;
    Digits(w, x, y, z);
    assert c == (w * 0x40 + x) * 0x1000 + y * 0x40 + z;
    Digits(w * 0x40 + x, y, z, 0);
    Digits(w, x, 0, 0);
    assert c == ((w * 0x40 + x) * 0x40 + y) * 0x40 + z;
    Digits((w * 0x40 + x) * 0x40 + y, z, 0, 0);
    Digits(w * 0x40 + x, y, 0, 0);
  }

  /** Every well-formed character encodes a scalar value. */
  lemma FirstScalar(s: seq<byte>) returns (c: Scalar)
    requires CharLen(s) > 0
    ensures EncodeScalar(c) == s[..CharLen(s)]
  {
    var n := CharLen(s);
    var lead: int := s[0];
    if n == 1 {
      c := lead;
    } else if n == 2 {
      var a: int := s[1];
      c := (lead - 0xC0) * 0x40 + (a - 0x80);
    } else if n == 3 {
      var a: int, b: int := s[1], s[2];
      ThreeBytes(lead, a, b);
      c := (lead - 0xE0) * 0x1000 + (a - 0x80) * 0x40 + (b - 0x80);
    } else {
      var a: int, b: int, d: int := s[1], s[2], s[3];
      FourBytes(lead, a, b, d);
      c := (lead - 0xF0) * 0x4_0000 + (a - 0x80) * 0x1000 + (b - 0x80) * 0x40 + (d - 0x80);
    }
  }

  lemma {:induction false} EncodingsAreValid(cs: seq<Scalar>)
    ensures ValidUtf8(EncodeScalars(cs))
  {
    if cs != [] {
      EncodingsAreValid(cs[1..]);
      EncodedCharLen(cs[0], EncodeScalars(cs[1..]));
      assert EncodeScalars(cs)[|EncodeScalar(cs[0])|..] == EncodeScalars(cs[1..]);
    }
  }

  lemma {:induction false} ValidTextHasScalars(s: seq<byte>) returns (cs: seq<Scalar>)
    requires ValidUtf8(s)
    ensures EncodeScalars(cs) == s
    decreases |s|
  {
    if s == [] {
      cs := [];
    } else {
      var c := FirstScalar(s);
      var rest := ValidTextHasScalars(s[CharLen(s)..]);
      cs := [c] + rest;
      assert cs[1..] == rest;
      assert s == s[..CharLen(s)] + s[CharLen(s)..];
    }
  }

  /** Text is valid if and only if it encodes some sequence of scalar values. */
  lemma ValidMeansEncoded(s: seq<byte>)
    ensures ValidUtf8(s) <==> exists cs :: EncodeScalars(cs) == s
  {
    if ValidUtf8(s) {
      var cs := ValidTextHasScalars(s);
      assert EncodeScalars(cs) == s;
    } else {
      forall cs: seq<Scalar>
        ensures EncodeScalars(cs) != s
      {
        EncodingsAreValid(cs);
      }
    }
  }
}
