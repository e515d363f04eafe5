/**
 * The byte-level encodings the password encryption (src/fusion_solar_py/encryption.py)
 * goes through: UTF-8 (`str.encode()`), percent-encoding (`urllib.parse.quote`, with `/`
 * left as it is) and base64 (`base64.b64encode`, section 4 of RFC 4648), each with the
 * decoding it is inverted by.
 */
module Encoding {
  import opened Wrappers

  type byte = x: int | 0 <= x < 256

  // ---------------------------------------------------------------- UTF-8 (RFC 3629)

  /** The UTF-8 encoding of one Unicode scalar value. */
  function Utf8(c: char): (r: seq<byte>)
    ensures 1 <= |r| <= 4
    ensures (c as int < 128) <==> (|r| == 1 && r[0] < 128)
    ensures c as int < 128 ==> r == [c as int]
  {
    var cp := c as int;
    if cp < 0x80 then [cp]
    else if cp < 0x800 then [0xC0 + cp / 64, 0x80 + cp % 64]
    else if cp < 0x1_0000 then [0xE0 + cp / 4096, 0x80 + cp / 64 % 64, 0x80 + cp % 64]
    else [0xF0 + cp / 262144, 0x80 + cp / 4096 % 64, 0x80 + cp / 64 % 64, 0x80 + cp % 64]
  }

  predicate IsAscii(s: string) {
    forall i :: 0 <= i < |s| ==> s[i] as int < 128
  }

  /** `s.encode()`: the UTF-8 encodings of the characters, in order. An ASCII string is
      encoded as its own character codes, one byte per character. */
  function Utf8Of(s: string): (r: seq<byte>)
    ensures |r| >= |s|
    ensures IsAscii(s) ==> |r| == |s| && forall i :: 0 <= i < |s| ==> r[i] == s[i] as int
  {
    if s == [] then [] else Utf8(s[0]) + Utf8Of(s[1..])
  }

  /** A UTF-8 continuation byte, 10xxxxxx. */
  predicate Continuation(x: byte) {
    0x80 <= x < 0xC0
  }

  /** The length of the sequence a UTF-8 lead byte starts; 0 for a byte no sequence starts with. */
  function Utf8Width(lead: byte): nat {
    if lead < 0x80 then 1
    else if 0xC0 <= lead < 0xE0 then 2
    else if 0xE0 <= lead < 0xF0 then 3
    else if 0xF0 <= lead < 0xF8 then 4
    else 0
  }

  /** A code point that is a Unicode scalar value, as a character. */
  function ScalarOf(cp: int): Option<char> {
    if 0 <= cp < 0xD800 || 0xE000 <= cp < 0x11_0000 then Some(cp as char) else None
  }

  /** The character one UTF-8 sequence encodes. */
  function DecodeScalar(q: seq<byte>): Option<char>
    requires 1 <= |q| <= 4
  {
    var b: seq<int> := q;
    if |b| == 1 then ScalarOf(b[0])
    else if !(forall i :: 1 <= i < |q| ==> Continuation(q[i])) then None
    else if |b| == 2 then ScalarOf((b[0] - 0xC0) * 64 + (b[1] - 0x80))
    else if |b| == 3 then ScalarOf((b[0] - 0xE0) * 4096 + (b[1] - 0x80) * 64 + (b[2] - 0x80))
    else ScalarOf((b[0] - 0xF0) * 262144 + (b[1] - 0x80) * 4096 + (b[2] - 0x80) * 64 + (b[3] - 0x80))
  }

  /** `bytes.decode()`: UTF-8 back to a string; None where Python raises UnicodeDecodeError. */
  function Utf8Decode(b: seq<byte>): Option<string>
    decreases |b|
  {
    if b == [] then Some([])
    else
      var w := Utf8Width(b[0]);
      if w == 0 || |b| < w then None
      else
        match DecodeScalar(b[..w])
        case None => None
        case Some(c) =>
          match Utf8Decode(b[w..])
          case None => None
          case Some(rest) => Some([c] + rest)
  }

  lemma TwoByteScalar(c: char)
    requires 0x80 <= c as int < 0x800
    ensures |Utf8(c)| == Utf8Width(Utf8(c)[0]) && DecodeScalar(Utf8(c)) == Some(c)
  {
    var cp := c as int;
    assert Utf8(c) == [0xC0 + cp / 64, 0x80 + cp % 64];
    assert (cp / 64) * 64 + cp % 64 == cp;
  }

  lemma ThreeByteScalar(c: char)
    requires 0x800 <= c as int < 0x1_0000
    ensures |Utf8(c)| == Utf8Width(Utf8(c)[0]) && DecodeScalar(Utf8(c)) == Some(c)
  {
    var cp := c as int;
    assert Utf8(c) == [0xE0 + cp / 4096, 0x80 + cp / 64 % 64, 0x80 + cp % 64];
    assert cp / 64 == (cp / 4096) * 64 + cp / 64 % 64;
    assert cp == (cp / 64) * 64 + cp % 64;
  }

  lemma FourByteScalar(c: char)
    requires 0x1_0000 <= c as int
    ensures |Utf8(c)| == Utf8Width(Utf8(c)[0]) && DecodeScalar(Utf8(c)) == Some(c)
  {
    var cp := c as int;
    assert cp < 0x11_0000;
    assert Utf8(c) == [0xF0 + cp / 262144, 0x80 + cp / 4096 % 64, 0x80 + cp / 64 % 64, 0x80 + cp % 64];
    assert cp / 4096 == (cp / 262144) * 64 + cp / 4096 % 64;
    assert cp / 64 == (cp / 4096) * 64 + cp / 64 % 64;
    assert cp == (cp / 64) * 64 + cp % 64;
  }

  /** One character's encoding is a sequence its lead byte announces, decoding back to it. */
  lemma Utf8Scalar(c: char)
    ensures |Utf8(c)| == Utf8Width(Utf8(c)[0]) && DecodeScalar(Utf8(c)) == Some(c)
  {
    if c as int < 0x80 {
    } else if c as int < 0x800 {
      TwoByteScalar(c);
    } else if c as int < 0x1_0000 {
      ThreeByteScalar(c);
    } else {
      FourByteScalar(c);
    }
  }

  /** Decoding a character's sequence followed by more bytes. */
  lemma Utf8DecodeCons(c: char, rest: seq<byte>, tail: string)
    requires Utf8Decode(rest) == Some(tail)
    ensures Utf8Decode(Utf8(c) + rest) == Some([c] + tail)
  {
    var e := Utf8(c);
    var b := e + rest;
    Utf8Scalar(c);
    assert b[..|e|] == e && b[|e|..] == rest;
  }

  /** `s.encode().decode() == s`. */
  lemma {:induction false} Utf8RoundTrip(s: string)
    ensures Utf8Decode(Utf8Of(s)) == Some(s)
  {
    if s != [] {
      Utf8RoundTrip(s[1..]);
      Utf8DecodeCons(s[0], Utf8Of(s[1..]), s[1..]);
      assert [s[0]] + s[1..] == s;
    }
  }

  /** Distinct strings have distinct UTF-8 encodings. */
  lemma Utf8Injective(a: string, b: string)
    requires Utf8Of(a) == Utf8Of(b)
    ensures a == b
  {
    Utf8RoundTrip(a);
    Utf8RoundTrip(b);
  }

  // ---------------------------------------------------------------- percent-encoding

  /** The characters `quote` leaves as they are: letters, digits, "_.-~" and the safe "/". */
  predicate QuoteSafe(c: char) {
    ('A' <= c <= 'Z') || ('a' <= c <= 'z') || ('0' <= c <= '9')
    || c == '_' || c == '.' || c == '-' || c == '~' || c == '/'
  }

  /** An upper-case hexadecimal digit. */
  function HexDigit(n: nat): (c: char)
    requires n < 16
    ensures c as int < 128 && c != '%'
  {
    if n < 10 then ('0' as int + n) as char else ('A' as int + n - 10) as char
  }

  function HexValue(c: char): Option<nat> {
    if '0' <= c <= '9' then Some(c as int - '0' as int)
    else if 'A' <= c <= 'F' then Some(c as int - 'A' as int + 10)
    else if 'a' <= c <= 'f' then Some(c as int - 'a' as int + 10)
    else None
  }

  lemma HexDigitValue(n: nat)
    requires n < 16
    ensures HexValue(HexDigit(n)) == Some(n)
  {
  }

  /** One byte as `quote` writes it: the safe character itself, or "%XY". */
  function QuoteByte(b: byte): (q: string)
    ensures IsAscii(q) && (|q| == 1 || |q| == 3)
    ensures |q| == 1 <==> QuoteSafe(b as char)
  {
    if QuoteSafe(b as char) then [b as char] else ['%', HexDigit(b / 16), HexDigit(b % 16)]
  }

  /** `urllib.parse.quote_from_bytes(bs, safe="/")`. */
  function QuoteBytes(bs: seq<byte>): (q: string)
    ensures IsAscii(q)
    ensures |bs| <= |q| <= 3 * |bs|
  {
    if bs == [] then "" else QuoteByte(bs[0]) + QuoteBytes(bs[1..])
  }

  /** `urllib.parse.quote(s)`: percent-encode the UTF-8 encoding of s. */
  function Quote(s: string): string {
    QuoteBytes(Utf8Of(s))
  }

  /** `urllib.parse.unquote_to_bytes` on ASCII text: "%XY" with two hexadecimal digits is
      one byte, any other character its own code. */
  function Unquote(q: string): Option<seq<byte>> {
    if q == [] then Some([])
    else if q[0] as int >= 128 then None
    else if q[0] == '%' && |q| >= 3 && HexValue(q[1]).Some? && HexValue(q[2]).Some? then
      match Unquote(q[3..])
      case None => None
      case Some(rest) => Some([HexValue(q[1]).value * 16 + HexValue(q[2]).value] + rest)
    else
      match Unquote(q[1..])
      case None => None
      case Some(rest) => Some([q[0] as int] + rest)
  }

  /** Unquoting undoes quoting, so distinct byte strings never quote alike. */
  lemma {:induction false} UnquoteQuoteBytes(bs: seq<byte>)
    ensures Unquote(QuoteBytes(bs)) == Some(bs)
  {
    if bs != [] {
      var q := QuoteByte(bs[0]);
      var rest := QuoteBytes(bs[1..]);
      UnquoteQuoteBytes(bs[1..]);
      if QuoteSafe(bs[0] as char) {
        assert (q + rest)[1..] == rest;
      } else {
        HexDigitValue(bs[0] / 16);
        HexDigitValue(bs[0] % 16);
        assert (q + rest)[3..] == rest;
      }
      assert bs == [bs[0]] + bs[1..];
    }
  }

  /** The quoted password is ASCII and unquotes to its UTF-8 encoding. */
  lemma QuoteRoundTrip(s: string)
    ensures IsAscii(Quote(s)) && |Quote(s)| >= |s|
    ensures Unquote(Quote(s)) == Some(Utf8Of(s))
  {
    UnquoteQuoteBytes(Utf8Of(s));
  }

  // ---------------------------------------------------------------- base64 (RFC 4648, section 4)

  /** The base64 alphabet: A-Z, a-z, 0-9, "+", "/". */
  function Sextet(n: nat): (c: char)
    requires n < 64
    ensures c != '='
  {
    if n < 26 then ('A' as int + n) as char
    else if n < 52 then ('a' as int + n - 26) as char
    else if n < 62 then ('0' as int + n - 52) as char
    else if n == 62 then '+'
    else '/'
  }

  function SextetValue(c: char): Option<nat> {
    if 'A' <= c <= 'Z' then Some(c as int - 'A' as int)
    else if 'a' <= c <= 'z' then Some(c as int - 'a' as int + 26)
    else if '0' <= c <= '9' then Some(c as int - '0' as int + 52)
    else if c == '+' then Some(62)
    else if c == '/' then Some(63)
    else None
  }

  lemma SextetValueOf(n: nat)
    requires n < 64
    ensures SextetValue(Sextet(n)) == Some(n)
  {
  }

  /** `base64.b64encode`: each 3 bytes become 4 characters; a final group of 1 or 2 bytes is
      padded with "=" to 4 characters. */
  function Base64(b: seq<byte>): (r: string)
    ensures |r| == 4 * ((|b| + 2) / 3)
  {
    if |b| == 0 then ""
    else if |b| == 1 then OneByteQuad(b[0])
    else if |b| == 2 then TwoByteQuad(b[0], b[1])
    else ThreeByteQuad(b[0], b[1], b[2]) + Base64(b[3..])
  }

  /** One group of four characters; padding is accepted only in the final group. */
  function DecodeQuad(q: string, last: bool): Option<seq<byte>>
    requires |q| == 4
  {
    match (SextetValue(q[0]), SextetValue(q[1]))
    case (Some(n0), Some(n1)) =>
      if last && q[2] == '=' && q[3] == '=' then Some([n0 * 4 + n1 / 16])
      else
        (match SextetValue(q[2])
         case None => None
         case Some(n2) =>
           if last && q[3] == '=' then Some([n0 * 4 + n1 / 16, n1 % 16 * 16 + n2 / 4])
           else
             match SextetValue(q[3])
             case None => None
             case Some(n3) => Some([n0 * 4 + n1 / 16, n1 % 16 * 16 + n2 / 4, n2 % 4 * 64 + n3]))
    case _ => None
  }

  /** `base64.b64decode` of well-formed input. */
  function Base64Decode(s: string): Option<seq<byte>> {
    if |s| == 0 then Some([])
    else if |s| < 4 then None
    else
      match DecodeQuad(s[..4], |s| == 4)
      case None => None
      case Some(group) =>
        match Base64Decode(s[4..])
        case None => None
        case Some(rest) => Some(group + rest)
  }

  /** The last group of an input of one byte: two characters and two "=" pads. */
  function OneByteQuad(b0: byte): string {
    [Sextet(b0 / 4), Sextet(b0 % 4 * 16), '=', '=']
  }

  /** The last group of an input of two bytes: three characters and one "=" pad. */
  function TwoByteQuad(b0: byte, b1: byte): string {
    [Sextet(b0 / 4), Sextet(b0 % 4 * 16 + b1 / 16), Sextet(b1 % 16 * 4), '=']
  }

  /** A full group of three bytes: four characters. */
  function ThreeByteQuad(b0: byte, b1: byte, b2: byte): string {
    [Sextet(b0 / 4), Sextet(b0 % 4 * 16 + b1 / 16), Sextet(b1 % 16 * 4 + b2 / 64), Sextet(b2 % 64)]
  }

  /** A final group of one byte decodes back to it. */
  lemma OneByteGroup(b0: byte)
    ensures |OneByteQuad(b0)| == 4 && DecodeQuad(OneByteQuad(b0), true) == Some([b0])
  {
    SextetValueOf(b0 / 4);
    SextetValueOf(b0 % 4 * 16);
  }

  /** A final group of two bytes decodes back to them. */
  lemma TwoByteGroup(b0: byte, b1: byte)
    ensures |TwoByteQuad(b0, b1)| == 4 && DecodeQuad(TwoByteQuad(b0, b1), true) == Some([b0, b1])
  {
    var n0, n1, n2 := b0 / 4, b0 % 4 * 16 + b1 / 16, b1 % 16 * 4;
    SextetValueOf(n0);
    SextetValueOf(n1);
    SextetValueOf(n2);
    assert n0 * 4 + n1 / 16 == b0;
    assert n1 % 16 * 16 + n2 / 4 == b1;
  }

  /** A full group of three bytes decodes back to them, final or not. */
  lemma ThreeByteGroup(b0: byte, b1: byte, b2: byte, last: bool)
    ensures |ThreeByteQuad(b0, b1, b2)| == 4 && DecodeQuad(ThreeByteQuad(b0, b1, b2), last) == Some([b0, b1, b2])
  {
    var n0, n1, n2, n3 := b0 / 4, b0 % 4 * 16 + b1 / 16, b1 % 16 * 4 + b2 / 64, b2 % 64;
    SextetValueOf(n0);
    SextetValueOf(n1);
    SextetValueOf(n2);
    SextetValueOf(n3);
    assert n0 * 4 + n1 / 16 == b0;
    assert n1 % 16 * 16 + n2 / 4 == b1;
    assert n2 % 4 * 64 + n3 == b2;
  }

  /** Decoding a text of a single group. */
  lemma DecodeLastGroup(s: string)
    requires |s| == 4
    ensures Base64Decode(s) == DecodeQuad(s, true)
  {
    assert s[..4] == s;
    assert Base64Decode(s[4..]) == Some([]);
    if DecodeQuad(s, true).Some? {
      assert DecodeQuad(s, true).value + [] == DecodeQuad(s, true).value;
    }
  }

  /** A single byte round-trips. */
  lemma OneByteRoundTrip(b: seq<byte>)
    requires |b| == 1
    ensures Base64Decode(Base64(b)) == Some(b)
  {
    assert Base64(b) == OneByteQuad(b[0]);
    OneByteGroup(b[0]);
    DecodeLastGroup(OneByteQuad(b[0]));
    assert b == [b[0]];
  }

  /** Two bytes round-trip. */
  lemma TwoByteRoundTrip(b: seq<byte>)
    requires |b| == 2
    ensures Base64Decode(Base64(b)) == Some(b)
  {
    assert Base64(b) == TwoByteQuad(b[0], b[1]);
    TwoByteGroup(b[0], b[1]);
    DecodeLastGroup(TwoByteQuad(b[0], b[1]));
    assert b == [b[0], b[1]];
  }

  /** Decoding a group followed by more text: the group's bytes, then the rest's. */
  lemma DecodeCons(q: string, rest: string, group: seq<byte>, tail: seq<byte>)
    requires |q| == 4 && DecodeQuad(q, rest == []) == Some(group)
    requires Base64Decode(rest) == Some(tail)
    ensures Base64Decode(q + rest) == Some(group + tail)
  {
    var s := q + rest;
    assert s[..4] == q && s[4..] == rest;
  }

  /** The encoding of three bytes or more: a full group, then the encoding of the rest. */
  lemma Base64FirstGroup(b: seq<byte>)
    requires |b| >= 3
    ensures Base64(b) == ThreeByteQuad(b[0], b[1], b[2]) + Base64(b[3..])
  {
  }

  lemma FirstThree(b: seq<byte>)
    requires |b| >= 3
    ensures [b[0], b[1], b[2]] + b[3..] == b
  {
  }

  /** Three bytes or more round-trip when the bytes after the first group do. */
  lemma FirstGroupRoundTrip(b: seq<byte>)
    requires |b| >= 3 && Base64Decode(Base64(b[3..])) == Some(b[3..])
    ensures Base64Decode(Base64(b)) == Some(b)
  {
    var rest := Base64(b[3..]);
    Base64FirstGroup(b);
    ThreeByteGroup(b[0], b[1], b[2], rest == []);
    DecodeCons(ThreeByteQuad(b[0], b[1], b[2]), rest, [b[0], b[1], b[2]], b[3..]);
    FirstThree(b);
  }

  /** Decoding undoes `b64encode`. */
  lemma {:induction false} Base64RoundTrip(b: seq<byte>)
    ensures Base64Decode(Base64(b)) == Some(b)
  {
    if |b| == 1 {
      OneByteRoundTrip(b);
    } else if |b| == 2 {
      TwoByteRoundTrip(b);
    } else if |b| >= 3 {
      Base64RoundTrip(b[3..]);
      FirstGroupRoundTrip(b);
    }
  }
}
