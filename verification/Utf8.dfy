/** Well-formed UTF-8, as section 3 of RFC 3629 and Go's unicode/utf8 define it. */
module Utf8 {
  type byte = x: int | 0 <= x < 256

  predicate Tail(b: byte) { 0x80 <= b <= 0xbf }

  /** The second byte of a three-byte form: no overlong form, no surrogate. */
  predicate SecondOfThree(a: byte, b: byte) {
    (if a == 0xe0 then 0xa0 else 0x80) <= b <= (if a == 0xed then 0x9f else 0xbf)
  }

  /** The second byte of a four-byte form: no overlong form, nothing past U+10FFFF. */
  predicate SecondOfFour(a: byte, b: byte) {
    (if a == 0xf0 then 0x90 else 0x80) <= b <= (if a == 0xf4 then 0x8f else 0xbf)
  }

  /** How many bytes the first character takes; 0 when the bytes do not begin with one. */
  function Width(s: seq<byte>): (n: nat)
    ensures n <= |s| && n <= 4
  {
    if s == [] then 0
    else if s[0] < 0x80 then 1
    else if 0xc2 <= s[0] <= 0xdf && |s| >= 2 && Tail(s[1]) then 2
    else if 0xe0 <= s[0] <= 0xef && |s| >= 3 && SecondOfThree(s[0], s[1]) && Tail(s[2]) then 3
    else if 0xf0 <= s[0] <= 0xf4 && |s| >= 4 && SecondOfFour(s[0], s[1]) && Tail(s[2]) && Tail(s[3]) then 4
    else 0
  }

  predicate Scalar(r: int) { 0 <= r < 0xd800 || 0xe000 <= r <= 0x10ffff }

  /** Six more bits. */
  function Join(high: int, b: byte): int { high * 0x40 + (b - 0x80) }

  /** The character that the first bytes encode. */
  function Rune(s: seq<byte>): (r: int)
    requires Width(s) > 0
    ensures Scalar(r)
  {
    match Width(s)
    case 1 => s[0]
    case 2 => Join(s[0] - 0xc0, s[1])
    case 3 => Join(Join(s[0] - 0xe0, s[1]), s[2])
    case _ => Join(Join(Join(s[0] - 0xf0, s[1]), s[2]), s[3])
  }

  /** utf8.Valid. */
  predicate Valid(s: seq<byte>) {
    s == [] || (Width(s) > 0 && Valid(s[Width(s)..]))
  }

  function Encode(r: int): seq<byte>
    requires Scalar(r)
  {
    if r < 0x80 then [r]
    else if r < 0x800 then [0xc0 + r / 0x40, Last(r)]
    else if r < 0x10000 then [0xe0 + r / 0x40 / 0x40, Last(r / 0x40), Last(r)]
    else [0xf0 + r / 0x40 / 0x40 / 0x40, Last(r / 0x40 / 0x40), Last(r / 0x40), Last(r)]
  }

  function Last(r: int): byte { 0x80 + r % 0x40 }

  lemma JoinSplits(high: int, b: byte)
    requires Tail(b)
    ensures Join(high, b) / 0x40 == high && Last(Join(high, b)) == b
  {}

  /** Decoding loses nothing: the character encodes back to the bytes it came from. */
  lemma RuneEncodesBack(s: seq<byte>)
    requires Width(s) > 0
    ensures Encode(Rune(s)) == s[..Width(s)]
  {
    match Width(s)
    case 1 =>
    case 2 => JoinSplits(s[0] - 0xc0, s[1]);
    case 3 =>
      JoinSplits(s[0] - 0xe0, s[1]);
      JoinSplits(Join(s[0] - 0xe0, s[1]), s[2]);
    case _ =>
      JoinSplits(s[0] - 0xf0, s[1]);
      JoinSplits(Join(s[0] - 0xf0, s[1]), s[2]);
      JoinSplits(Join(Join(s[0] - 0xf0, s[1]), s[2]), s[3]);
  }

  /** A character never reaches over an ASCII byte. */
  lemma AsciiStops(x: seq<byte>, s: seq<byte>)
    requires x != [] && x <= s && (|x| < |s| ==> s[|x|] < 0x80)
    ensures Width(x) == Width(s)
  {}

  lemma {:induction false} SplitAtAscii(x: seq<byte>, y: seq<byte>)
    requires y != [] && y[0] < 0x80 && Valid(x + y)
    ensures Valid(x) && Valid(y)
  {
    if x == [] {
      assert x + y == y;
    } else {
      AsciiStops(x, x + y);
      var n := Width(x);
      assert (x + y)[n..] == x[n..] + y;
      SplitAtAscii(x[n..], y);
    }
  }

  lemma {:induction false} JoinValid(x: seq<byte>, y: seq<byte>)
    requires Valid(x) && Valid(y)
    ensures Valid(x + y)
  {
    if x == [] {
      assert x + y == y;
    } else {
      var n := Width(x);
      LongerKeepsWidth(x, y);
      assert (x + y)[n..] == x[n..] + y;
      JoinValid(x[n..], y);
    }
  }

  lemma LongerKeepsWidth(x: seq<byte>, y: seq<byte>)
    requires Width(x) > 0
    ensures Width(x + y) == Width(x)
  {}

  lemma SkipAscii(s: seq<byte>)
    requires s != [] && s[0] < 0x80
    ensures Valid(s) <==> Valid(s[1..])
  {}
}
