/** The reviewed-context scanner: JSON string literals whose UTF-16 escapes the decoder would have to repair
    are refused (sections 7 and 8.2 of RFC 8259), and ill-formed UTF-8 is refused before it gets here. */
module Surrogates {
  import opened Utf8

  const Quote: byte := 0x22
  const Backslash: byte := 0x5c
  const LowerU: byte := 0x75

  predicate Hex(b: byte) {
    0x30 <= b <= 0x39 || 0x41 <= b <= 0x46 || 0x61 <= b <= 0x66
  }

  function HexValue(b: byte): (v: nat)
    requires Hex(b)
    ensures v < 16
  {
    if b <= 0x39 then b - 0x30 else if b <= 0x46 then b - 0x37 else b - 0x57
  }

  predicate AllHex(s: seq<byte>) {
    forall i :: 0 <= i < |s| ==> Hex(s[i])
  }

  /** strconv.ParseUint with base 16, on hexadecimal digits. */
  function ParseHex(s: seq<byte>): nat
    requires AllHex(s)
  {
    if s == [] then 0 else 16 * ParseHex(s[..|s| - 1]) + HexValue(s[|s| - 1])
  }

  predicate SimpleEscape(b: byte) {
    b == Quote || b == Backslash || b == 0x2f || b == 0x62 || b == 0x66 || b == 0x6e || b == 0x72 || b == 0x74
  }

  // ----- the grammar -----

  predicate PlainStart(s: seq<byte>) {
    s != [] && s[0] >= 0x20 && s[0] != Quote && s[0] != Backslash
  }

  predicate EscapeStart(s: seq<byte>) {
    |s| >= 2 && s[0] == Backslash && SimpleEscape(s[1])
  }

  predicate UnicodeStart(s: seq<byte>) {
    |s| >= 6 && s[0] == Backslash && s[1] == LowerU && AllHex(s[2..6])
  }

  /** The characters between the quotes of a JSON string. */
  predicate ValidBody(s: seq<byte>) {
    s == [] ||
    (PlainStart(s) && ValidBody(s[1..])) ||
    (EscapeStart(s) && ValidBody(s[2..])) ||
    (UnicodeStart(s) && ValidBody(s[6..]))
  }

  function Body(data: seq<byte>): seq<byte>
    requires |data| >= 2
  {
    data[1..|data| - 1]
  }

  predicate ValidLiteral(data: seq<byte>) {
    |data| >= 2 && data[0] == Quote && data[|data| - 1] == Quote && ValidBody(Body(data))
  }

  /** A literal's units: a byte as written, a short escape, or a UTF-16 code unit. */
  datatype Piece = Plain(b: byte) | Short(b: byte) | Unit(code: nat)

  function Pieces(s: seq<byte>): seq<Piece>
    requires ValidBody(s)
  {
    if s == [] then []
    else if PlainStart(s) then [Plain(s[0])] + Pieces(s[1..])
    else if EscapeStart(s) then [Short(s[1])] + Pieces(s[2..])
    else [Unit(ParseHex(s[2..6]))] + Pieces(s[6..])
  }

  // ----- surrogates -----

  predicate High(p: Piece) { p.Unit? && 0xd800 <= p.code <= 0xdbff }
  predicate Low(p: Piece) { p.Unit? && 0xdc00 <= p.code <= 0xdfff }

  /** Every high unit is followed at once by a low one, and every low unit follows a high one. */
  predicate Paired(ps: seq<Piece>) {
    (forall i :: 0 <= i < |ps| && High(ps[i]) ==> i + 1 < |ps| && Low(ps[i + 1])) &&
    (forall i :: 0 <= i < |ps| && Low(ps[i]) ==> 0 < i && High(ps[i - 1]))
  }

  /** The same, read from left to right. */
  predicate PairedFrom(ps: seq<Piece>) {
    ps == [] ||
    (if High(ps[0]) then |ps| >= 2 && Low(ps[1]) && PairedFrom(ps[2..]) else !Low(ps[0]) && PairedFrom(ps[1..]))
  }

  lemma {:induction false} PairedIsPairedFrom(ps: seq<Piece>)
    ensures Paired(ps) <==> PairedFrom(ps)
  {
    if ps == [] {
    } else if High(ps[0]) {
      if |ps| >= 2 && Low(ps[1]) {
        PairedIsPairedFrom(ps[2..]);
        PairedAfterPair(ps);
      }
    } else {
      PairedIsPairedFrom(ps[1..]);
      PairedAfterOne(ps);
    }
  }

  lemma PairedAfterPair(ps: seq<Piece>)
    requires |ps| >= 2 && High(ps[0]) && Low(ps[1])
    ensures Paired(ps) <==> Paired(ps[2..])
  {
    var t := ps[2..];
    assert forall i :: 0 <= i < |t| ==> t[i] == ps[i + 2];
    assert forall i :: 2 <= i < |ps| ==> ps[i] == t[i - 2];
    if Paired(ps) {
      forall i | 0 <= i < |t| && High(t[i]) ensures i + 1 < |t| && Low(t[i + 1]) { assert High(ps[i + 2]); }
      forall i | 0 <= i < |t| && Low(t[i]) ensures 0 < i && High(t[i - 1]) { assert Low(ps[i + 2]); }
    }
    if Paired(t) {
      forall i | 0 <= i < |ps| && High(ps[i]) ensures i + 1 < |ps| &&
        Low(ps[i + 1]) { if i >= 2 { assert High(t[i - 2]); } }
      forall i | 0 <= i < |ps| && Low(ps[i]) ensures 0 < i && High(ps[i - 1]) { if i >= 2 { assert Low(t[i - 2]); } }
    }
  }

  lemma PairedAfterOne(ps: seq<Piece>)
    requires ps != [] && !High(ps[0])
    ensures Paired(ps) <==> !Low(ps[0]) && Paired(ps[1..])
  {
    var t := ps[1..];
    assert forall i :: 0 <= i < |t| ==> t[i] == ps[i + 1];
    if Paired(ps) {
      forall i | 0 <= i < |t| && High(t[i]) ensures i + 1 < |t| && Low(t[i + 1]) { assert High(ps[i + 1]); }
      forall i | 0 <= i < |t| && Low(t[i]) ensures 0 < i && High(t[i - 1]) { assert Low(ps[i + 1]); }
    }
    if !Low(ps[0]) && Paired(t) {
      forall i | 0 <= i < |ps| && High(ps[i]) ensures i + 1 < |ps| && Low(ps[i + 1]) { assert High(t[i - 1]); }
      forall i | 0 <= i < |ps| && Low(ps[i]) ensures 0 < i && High(ps[i - 1]) { assert Low(t[i - 1]); }
    }
  }

  // ----- what the decoder does -----

  datatype Decoded = Decoded(runes: seq<int>, repaired: bool)

  function EscapeValue(b: byte): int {
    if b == 0x62 then 0x08 else if b == 0x66 then 0x0c else if b == 0x6e then 0x0a else if b == 0x72 then 0x0d
    else if b == 0x74 then 0x09 else b
  }

  /** The bytes written as themselves at the front. */
  function Lead(ps: seq<Piece>): (s: seq<byte>)
    ensures |s| <= |ps| && forall i :: 0 <= i < |s| ==> ps[i] == Plain(s[i])
    ensures ps != [] && ps[0].Plain? ==> s != []
  {
    if ps != [] && ps[0].Plain? then [ps[0].b] + Lead(ps[1..]) else []
  }

  /** How many pieces make up the next character, and 0 when they make up none: a surrogate without its
      partner, or bytes that begin no UTF-8 character. */
  function Span(ps: seq<Piece>): (n: nat)
    ensures n <= |ps|
  {
    if ps == [] then 0
    else if ps[0].Plain? then Width(Lead(ps))
    else if High(ps[0]) then if |ps| >= 2 && Low(ps[1]) then 2 else 0
    else if Low(ps[0]) then 0
    else 1
  }

  function Character(ps: seq<Piece>): int
    requires Span(ps) > 0
  {
    match ps[0]
    case Plain(_) => Rune(Lead(ps))
    case Short(b) => EscapeValue(b)
    case Unit(code) =>
      if High(ps[0]) then 0x10000 + (code - 0xd800) * 0x400 + (ps[1].code - 0xdc00) else code
  }

  /** encoding/json: whatever makes up no character becomes U+FFFD, which is a repair. */
  function Decode(ps: seq<Piece>): Decoded {
    if ps == [] then Decoded([], false)
    else if Span(ps) == 0 then Decoded([0xfffd] + Decode(ps[1..]).runes, true)
    else
      var rest := Decode(ps[Span(ps)..]);
      Decoded([Character(ps)] + rest.runes, rest.repaired)
  }

  /** The bytes written as themselves are UTF-8, stretch by stretch. */
  predicate TextOk(ps: seq<Piece>) {
    ps == [] ||
    (if ps[0].Plain? then Width(Lead(ps)) > 0 && TextOk(ps[Width(Lead(ps))..]) else TextOk(ps[1..]))
  }

  lemma {:induction false} PairedSkips(ps: seq<Piece>, n: nat)
    requires n <= |ps| && forall i :: 0 <= i < n ==> ps[i].Plain?
    ensures PairedFrom(ps) <==> PairedFrom(ps[n..])
  {
    if n == 0 {
      assert ps[n..] == ps;
    } else {
      PairedSkips(ps[1..], n - 1);
      assert ps[1..][n - 1..] == ps[n..];
    }
  }

  lemma SkipBadByte(ps: seq<Piece>)
    requires ps != [] && ps[0].Plain? && Width(Lead(ps)) == 0
    ensures Decode(ps).repaired && !TextOk(ps)
  {}

  lemma SkipCharacter(ps: seq<Piece>)
    requires ps != [] && ps[0].Plain? && Width(Lead(ps)) > 0
    ensures var rest := ps[Width(Lead(ps))..];
            Decode(ps).repaired == Decode(rest).repaired && PairedFrom(ps) == PairedFrom(rest) &&
            TextOk(ps) == TextOk(rest)
  {
    PairedSkips(ps, Width(Lead(ps)));
  }

  lemma SkipPairOrOne(ps: seq<Piece>)
    requires ps != [] && !ps[0].Plain?
    ensures Span(ps) == 0 ==> Decode(ps).repaired && !PairedFrom(ps)
    ensures Span(ps) > 0 ==> var rest := ps[Span(ps)..];
            Decode(ps).repaired == Decode(rest).repaired && PairedFrom(ps) == PairedFrom(rest) &&
            TextOk(ps) == TextOk(rest)
  {
    if Span(ps) == 2 {
      assert ps[1..][1..] == ps[2..];
      assert TextOk(ps[1..]) == TextOk(ps[2..]);
    }
  }

  /** The decoder repairs nothing exactly when the surrogates pair up and the plain bytes are UTF-8. */
  lemma {:induction false} UnrepairedIff(ps: seq<Piece>)
    ensures !Decode(ps).repaired <==> PairedFrom(ps) && TextOk(ps)
  {
    if ps == [] {
    } else if ps[0].Plain? {
      if Width(Lead(ps)) == 0 {
        SkipBadByte(ps);
      } else {
        SkipCharacter(ps);
        UnrepairedIff(ps[Width(Lead(ps))..]);
      }
    } else {
      SkipPairOrOne(ps);
      if Span(ps) > 0 { UnrepairedIff(ps[Span(ps)..]); }
    }
  }

  predicate CodesFit(ps: seq<Piece>) {
    forall i :: 0 <= i < |ps| && ps[i].Unit? ==> ps[i].code < 0x10000
  }

  lemma {:induction false} PiecesFit(s: seq<byte>)
    requires ValidBody(s)
    ensures CodesFit(Pieces(s))
  {
    if s == [] {
    } else if PlainStart(s) {
      PiecesFit(s[1..]);
    } else if EscapeStart(s) {
      PiecesFit(s[2..]);
    } else {
      PiecesFit(s[6..]);
      FourDigits(s[2..6]);
    }
  }

  lemma FourDigits(h: seq<byte>)
    requires |h| == 4 && AllHex(h)
    ensures ParseHex(h) < 0x10000
  {
    assert h[..3][..2][..1][..0] == [];
    assert ParseHex(h[..3][..2][..1]) < 0x10;
    assert ParseHex(h[..3][..2]) < 0x100;
    assert ParseHex(h[..3]) < 0x1000;
  }

  lemma {:induction false} RunesAreScalar(ps: seq<Piece>)
    requires CodesFit(ps)
    ensures forall r <- Decode(ps).runes :: Scalar(r)
    ensures Decode(ps).repaired ==> 0xfffd in Decode(ps).runes
  {
    if ps != [] {
      RunesAreScalar(ps[if Span(ps) == 0 then 1 else Span(ps)..]);
    }
  }

  /** Whatever is decoded is text: scalar values only, with U+FFFD wherever something was repaired. */
  lemma DecodedIsText(s: seq<byte>)
    requires ValidBody(s)
    ensures forall r <- Decode(Pieces(s)).runes :: Scalar(r)
    ensures Decode(Pieces(s)).repaired ==> 0xfffd in Decode(Pieces(s)).runes
  {
    PiecesFit(s);
    RunesAreScalar(Pieces(s));
  }

  // ----- pieces and bytes -----

  /** The plain stretch at the front of a body ends with the body or at a backslash. */
  lemma {:induction false} LeadIsPrefix(s: seq<byte>)
    requires ValidBody(s)
    ensures var lead := Lead(Pieces(s)); lead <= s && (|lead| < |s| ==> s[|lead|] == Backslash)
  {
    if PlainStart(s) {
      LeadIsPrefix(s[1..]);
      assert Pieces(s)[1..] == Pieces(s[1..]);
      assert s == [s[0]] + s[1..];
    }
  }

  lemma {:induction false} PiecesAfter(s: seq<byte>, n: nat)
    requires ValidBody(s) && n <= |Lead(Pieces(s))|
    ensures n <= |s| && ValidBody(s[n..]) && Pieces(s[n..]) == Pieces(s)[n..]
  {
    LeadIsPrefix(s);
    if n == 0 {
      assert s[n..] == s;
    } else {
      assert PlainStart(s);
      assert Pieces(s)[1..] == Pieces(s[1..]);
      PiecesAfter(s[1..], n - 1);
      assert s[1..][n - 1..] == s[n..];
    }
  }

  lemma {:induction false} SkipAsciis(s: seq<byte>, n: nat)
    requires n <= |s| && forall i :: 0 <= i < n ==> s[i] < 0x80
    ensures Valid(s) <==> Valid(s[n..])
  {
    if n == 0 {
      assert s[n..] == s;
    } else {
      SkipAscii(s);
      SkipAsciis(s[1..], n - 1);
      assert s[1..][n - 1..] == s[n..];
    }
  }

  lemma {:induction false} TextOkIsUtf8(s: seq<byte>)
    requires ValidBody(s)
    ensures TextOk(Pieces(s)) <==> Valid(s)
    decreases |s|
  {
    if s == [] {
    } else if PlainStart(s) {
      var lead := Lead(Pieces(s));
      LeadIsPrefix(s);
      AsciiStops(lead, s);
      var n := Width(lead);
      if n > 0 {
        PiecesAfter(s, n);
        TextOkIsUtf8(s[n..]);
      }
    } else {
      var n := if EscapeStart(s) then 2 else 6;
      assert Pieces(s)[1..] == Pieces(s[n..]);
      EscapesAreAscii(s, n);
      SkipAsciis(s, n);
      TextOkIsUtf8(s[n..]);
    }
  }

  lemma EscapesAreAscii(s: seq<byte>, n: nat)
    requires (EscapeStart(s) && n == 2) || (UnicodeStart(s) && n == 6)
    ensures n <= |s| && forall i :: 0 <= i < n ==> s[i] < 0x80
  {
    if n == 6 {
      forall i | 0 <= i < n ensures s[i] < 0x80 {
        if i >= 2 { assert Hex(s[2..6][i - 2]); }
      }
    }
  }

  function EncodeAll(runes: seq<int>): seq<byte>
    requires forall r <- runes :: Scalar(r)
  {
    if runes == [] then [] else Encode(runes[0]) + EncodeAll(runes[1..])
  }

  lemma EncodeOpens(r: int, rest: seq<int>)
    requires Scalar(r) && forall x <- rest :: Scalar(x)
    ensures (forall x <- [r] + rest :: Scalar(x)) && EncodeAll([r] + rest) == Encode(r) + EncodeAll(rest)
  {
    assert ([r] + rest)[1..] == rest;
  }

  /** The first character of text without escapes. */
  lemma PlainOpens(s: seq<byte>)
    requires s != [] && ValidBody(s) && Width(s) > 0 && Backslash !in s
    ensures var n := Width(s);
            ValidBody(s[n..]) && Decode(Pieces(s)).runes == [Rune(s)] + Decode(Pieces(s[n..])).runes
  {
    assert s[0] in s;
    var lead := Lead(Pieces(s));
    LeadIsPrefix(s);
    assert lead == s;
    PiecesAfter(s, Width(s));
  }

  /** Text without escapes is read as it was written: its characters encode back to its bytes. */
  lemma {:induction false} PlainTextReadsBack(s: seq<byte>)
    requires ValidBody(s) && Valid(s) && Backslash !in s
    ensures var runes := Decode(Pieces(s)).runes; (forall r <- runes :: Scalar(r)) && EncodeAll(runes) == s
  {
    if s != [] {
      var n := Width(s);
      PlainOpens(s);
      PlainTextReadsBack(s[n..]);
      EncodeOpens(Rune(s), Decode(Pieces(s[n..])).runes);
      RuneEncodesBack(s);
      assert s == s[..n] + s[n..];
    }
  }

  /** The quotes of a literal do not matter to UTF-8. */
  lemma QuotesAreAscii(data: seq<byte>)
    requires ValidLiteral(data)
    ensures Valid(data) <==> Valid(Body(data))
  {
    var body := Body(data);
    assert data == [Quote] + (body + [Quote]);
    SkipAscii(data);
    assert data[1..] == body + [Quote];
    if Valid(body + [Quote]) { SplitAtAscii(body, [Quote]); }
    if Valid(body) {
      assert Valid([Quote]) by { assert [Quote][1..] == []; }
      JoinValid(body, [Quote]);
    }
  }

  /** Text that the scanner accepts is read without repair exactly when its bytes are UTF-8. */
  lemma AcceptedIsUnrepairedIff(data: seq<byte>)
    requires ValidLiteral(data) && Paired(Pieces(Body(data)))
    ensures !Decode(Pieces(Body(data))).repaired <==> Valid(data)
  {
    var ps := Pieces(Body(data));
    PairedIsPairedFrom(ps);
    UnrepairedIff(ps);
    TextOkIsUtf8(Body(data));
    QuotesAreAscii(data);
  }

  /** The scanner alone does not see an ill-formed byte: this literal passes it and is repaired. */
  lemma ScannerAloneMissesBadBytes()
    ensures var data: seq<byte> := [0x22, 0xff, 0x22];
            ValidLiteral(data) && Paired(Pieces(Body(data))) && Decode(Pieces(Body(data))).repaired
  {
    var data: seq<byte> := [0x22, 0xff, 0x22];
    assert Body(data) == [0xff];
    assert ValidBody([0xff][1..]);
    assert Pieces([0xff]) == [Plain(0xff)];
    assert Lead([Plain(0xff)]) == [0xff];
  }

  /** A literal cut out of a well-formed request body is itself well-formed. */
  lemma LiteralOfValidBody(before: seq<byte>, data: seq<byte>, after: seq<byte>)
    requires ValidLiteral(data) && Valid(before + data + after)
    ensures Valid(data)
  {
    var inner := data[..|data| - 1];
    assert before + data + after == before + (data + after);
    SplitAtAscii(before, data + after);
    assert data + after == inner + ([Quote] + after);
    SplitAtAscii(inner, [Quote] + after);
    assert Valid([Quote]) by { assert [Quote][1..] == []; }
    JoinValid(inner, [Quote]);
    assert data == inner + [Quote];
  }

  /** With the check of the whole request body in front of it, the scanner accepts a literal exactly when
      the decoder reads it without repair. */
  lemma GuardedContextIsExact(before: seq<byte>, data: seq<byte>, after: seq<byte>)
    requires ValidLiteral(data) && Valid(before + data + after)
    ensures Paired(Pieces(Body(data))) <==> !Decode(Pieces(Body(data))).repaired
  {
    LiteralOfValidBody(before, data, after);
    PairedIsPairedFrom(Pieces(Body(data)));
    UnrepairedIff(Pieces(Body(data)));
    TextOkIsUtf8(Body(data));
    QuotesAreAscii(data);
  }

  // ----- the scanner -----

  lemma UnicodeTail(s: seq<byte>)
    requires ValidBody(s) && |s| >= 2 && s[0] == Backslash
    ensures s[1] == LowerU ==> UnicodeStart(s) && ValidBody(s[6..])
    ensures s[1] != LowerU ==> EscapeStart(s) && ValidBody(s[2..])
  {}

  lemma SliceOfSlice(data: seq<byte>, i: nat, end: nat, a: nat, b: nat)
    requires i <= end <= |data| && a <= b <= end - i
    ensures data[i..end][a..b] == data[i + a..i + b]
  {
    var inner, direct := data[i..end][a..b], data[i + a..i + b];
    assert |inner| == |direct|;
    forall k | 0 <= k < |inner| ensures inner[k] == direct[k] {}
  }

  lemma SkipPlain(s: seq<byte>)
    requires ValidBody(s) && s != [] && s[0] != Backslash
    ensures ValidBody(s[1..]) && (PairedFrom(Pieces(s)) <==> PairedFrom(Pieces(s[1..])))
  {
    assert Pieces(s)[1..] == Pieces(s[1..]);
  }

  lemma SkipShort(s: seq<byte>)
    requires ValidBody(s) && EscapeStart(s)
    ensures ValidBody(s[2..]) && (PairedFrom(Pieces(s)) <==> PairedFrom(Pieces(s[2..])))
  {
    assert Pieces(s)[1..] == Pieces(s[2..]);
  }

  /** A code unit on its own: harmless, fatal, or waiting for the next one. */
  lemma SkipUnit(s: seq<byte>)
    requires ValidBody(s) && UnicodeStart(s)
    ensures ValidBody(s[6..])
    ensures var code := ParseHex(s[2..6]); var rest := Pieces(s[6..]);
            PairedFrom(Pieces(s)) <==>
            if 0xd800 <= code <= 0xdbff then rest != [] && Low(rest[0]) && PairedFrom(rest[1..])
                                       else !(0xdc00 <= code <= 0xdfff) && PairedFrom(rest)
  {
    UnicodeTail(s);
    var ps := Pieces(s);
    assert ps[1..] == Pieces(s[6..]);
    if |ps| >= 2 { assert ps[2..] == Pieces(s[6..])[1..]; }
  }

  lemma SkipPair(s: seq<byte>)
    requires ValidBody(s) && UnicodeStart(s) && ValidBody(s[6..]) && UnicodeStart(s[6..]) && ValidBody(s[6..][6..])
    ensures Pieces(s[6..])[1..] == Pieces(s[6..][6..])
  {
    UnicodeTail(s[6..]);
  }

  /** The six bytes after a high unit: present, an escape, and low. */
  method ScanLow(data: seq<byte>, at: nat, end: nat) returns (ok: bool)
    requires end == |data| - 1 && 1 <= at <= end && data[end] == Quote && ValidBody(data[at..end])
    ensures ok <==> Pieces(data[at..end]) != [] && Low(Pieces(data[at..end])[0])
    ensures ok ==> UnicodeStart(data[at..end]) && ValidBody(data[at..end][6..]) &&
                   Pieces(data[at..end])[1..] == Pieces(data[at..end][6..])
  {
    ghost var s := data[at..end];
    if at + 5 >= |data| || data[at] != Backslash || data[at + 1] != LowerU {
      if s != [] && s[0] == Backslash { UnicodeTail(s); }
      return false;
    }
    assert at < end && |s| >= 2 && s[0] == Backslash && s[1] == LowerU;
    UnicodeTail(s);
    SliceOfSlice(data, at, end, 2, 6);
    var low := ParseHex(data[at + 2..at + 6]);
    ok := 0xdc00 <= low <= 0xdfff;
  }

  /** One Unicode escape of the loop, with the low unit after a high one; `next` is where the loop goes on. */
  method ScanUnit(data: seq<byte>, i: nat, end: nat) returns (ok: bool, next: nat)
    requires end == |data| - 1 && 1 <= i <= end && data[end] == Quote && ValidBody(data[i..end])
    requires |data[i..end]| >= 2 && data[i] == Backslash && data[i + 1] == LowerU
    ensures ok ==> i < next <= end && ValidBody(data[next..end]) &&
                   (PairedFrom(Pieces(data[i..end])) <==> PairedFrom(Pieces(data[next..end])))
    ensures !ok ==> !PairedFrom(Pieces(data[i..end]))
  {
    ghost var s := data[i..end];
    UnicodeTail(s);
    SliceOfSlice(data, i, end, 2, 6);
    assert s[6..] == data[i + 6..end];
    SkipUnit(s);
    var code := ParseHex(data[i + 2..i + 6]);
    ok, next := !(0xdc00 <= code <= 0xdfff), i + 6;
    if 0xd800 <= code <= 0xdbff {
      ok := ScanLow(data, i + 6, end);
      if !ok { return; }
      SkipPair(s);
      assert data[i + 6..end][6..] == data[i + 12..end];
      next := i + 12;
    }
  }

  /** `UnmarshalJSON` of the reviewed context, for any input: every index it reads is in bounds, and it
      accepts exactly the JSON string literals in which every surrogate escape belongs to a pair. */
  method ScanContext(data: seq<byte>) returns (ok: bool)
    ensures ok <==> ValidLiteral(data) && Paired(Pieces(Body(data)))
  {
    if |data| < 2 || data[0] != Quote || !ValidLiteral(data) { return false; }
    var end := |data| - 1;
    ghost var body := Body(data);
    PairedIsPairedFrom(Pieces(body));
    var i := 1;
    assert data[i..end] == body;
    while i < end
      invariant 1 <= i <= end && ValidBody(data[i..end])
      invariant PairedFrom(Pieces(body)) <==> PairedFrom(Pieces(data[i..end]))
      decreases end - i
    {
      ghost var s := data[i..end];
      if data[i] != Backslash {
        SkipPlain(s);
        assert s[1..] == data[i + 1..end];
        i := i + 1;
        continue;
      }
      assert |s| >= 2;
      UnicodeTail(s);
      if data[i + 1] != LowerU {
        SkipShort(s);
        assert s[2..] == data[i + 2..end];
        i := i + 2;
        continue;
      }
      ok, i := ScanUnit(data, i, end);
      if !ok { return; }
    }
    ok := true;
  }
}
