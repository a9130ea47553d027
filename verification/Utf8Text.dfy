/** UTF-8 text: the octet sequences allowed by the grammar in section 4 of RFC 3629. */
module Utf8Text {
  import opened Bytes

  predicate Tail(b: byte)
  {
    0x80 <= b <= 0xBF
  }

  /** The length of the well-formed character at the front of `s`, or 0 when there is none. */
  function CharLen(s: seq<byte>): (n: nat)
    ensures n <= |s| && n <= 4
  {
    if s == [] then 0
    else if s[0] <= 0x7F then 1
    else if |s| >= 2 && 0xC2 <= s[0] <= 0xDF && Tail(s[1]) then 2
    else if |s| >= 3 && Tail(s[2]) && Utf8Pair3(s[0], s[1]) then 3
    else if |s| >= 4 && Tail(s[2]) && Tail(s[3]) && Utf8Pair4(s[0], s[1]) then 4
    else 0
  }

  predicate Utf8Pair3(a: byte, b: byte)
  {
    || (a == 0xE0 && 0xA0 <= b <= 0xBF)
    || (0xE1 <= a <= 0xEC && Tail(b))
    || (a == 0xED && 0x80 <= b <= 0x9F)
    || (0xEE <= a <= 0xEF && Tail(b))
  }

  predicate Utf8Pair4(a: byte, b: byte)
  {
    || (a == 0xF0 && 0x90 <= b <= 0xBF)
    || (0xF1 <= a <= 0xF3 && Tail(b))
    || (a == 0xF4 && 0x80 <= b <= 0x8F)
  }

  predicate ValidUtf8(s: seq<byte>)
    decreases |s|
  {
    s == [] || (CharLen(s) > 0 && ValidUtf8(s[CharLen(s)..]))
  }

  /** A Rust `String`. */
  type Text = s: seq<byte> | ValidUtf8(s) witness []
}
