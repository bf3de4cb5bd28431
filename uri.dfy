/**
 * `encodeURIComponent` and `decodeURIComponent` as section 19.2.6 of ECMA-262
 * (URI Handling Functions) defines them: every character outside the unescaped
 * set is turned into the UTF-8 octets of its code point, each written as a
 * percent-encoded octet (section 2.1 of RFC 3986) with upper-case hex digits.
 * Dafny's `char` is a Unicode scalar value, so the lone surrogates on which
 * `encodeURIComponent` throws cannot occur.
 */
module Uri {
  import opened Wrappers

  type byte = b: int | 0 <= b < 256

  /** The characters `encodeURIComponent` leaves as they are: A-Z a-z 0-9 - _ . ! ~ * ' ( ) */
  predicate Unescaped(c: char) {
    ('A' <= c <= 'Z') || ('a' <= c <= 'z') || ('0' <= c <= '9') ||
    c == '-' || c == '_' || c == '.' || c == '!' || c == '~' || c == '*' || c == '\'' || c == '(' || c == ')'
  }

  /** The UTF-8 octets of a code point. */
  function Utf8(c: char): (bs: seq<byte>)
    ensures 1 <= |bs| <= 4
  {
    var v := c as int;
    if v < 0x80 then [v]
    else if v < 0x800 then [0xC0 + v / 64, 0x80 + v % 64]
    else if v < 0x1_0000 then [0xE0 + v / 4096, 0x80 + (v / 64) % 64, 0x80 + v % 64]
    else [0xF0 + v / 262144, 0x80 + (v / 4096) % 64, 0x80 + (v / 64) % 64, 0x80 + v % 64]
  }

  /** An upper-case hexadecimal digit. */
  function HexDigit(d: int): char
    requires 0 <= d < 16
  {
    if d < 10 then '0' + d as char else 'A' + (d - 10) as char
  }

  /** The value of a hexadecimal digit of either case. */
  function HexValue(c: char): Option<int> {
    if '0' <= c <= '9' then Some(c as int - '0' as int)
    else if 'A' <= c <= 'F' then Some(c as int - 'A' as int + 10)
    else if 'a' <= c <= 'f' then Some(c as int - 'a' as int + 10)
    else None
  }

  /** One octet written as "%XY". */
  function Escape(b: byte): string {
    ['%', HexDigit(b / 16), HexDigit(b % 16)]
  }

  function EscapeAll(bs: seq<byte>): (s: string)
    ensures |s| == 3 * |bs|
  {
    if bs == [] then [] else Escape(bs[0]) + EscapeAll(bs[1..])
  }

  function EncodeChar(c: char): string {
    if Unescaped(c) then [c] else EscapeAll(Utf8(c))
  }

  /** `encodeURIComponent(s)`. */
  function Encode(s: string): string {
    if s == [] then [] else EncodeChar(s[0]) + Encode(s[1..])
  }

  /** The octet written as "%XY" at the start of `s`, if there is one. */
  function EscapedOctet(s: string): (r: Option<byte>)
    ensures r.Some? ==> |s| >= 3
  {
    if |s| < 3 || s[0] != '%' then None
    else match (HexValue(s[1]), HexValue(s[2]))
      case (Some(h), Some(l)) => Some(h * 16 + l)
      case _ => None
  }

  /** The number of leading 1 bits of an octet. */
  function LeadingOnes(b: byte): nat {
    if b < 0x80 then 0
    else if b < 0xC0 then 1
    else if b < 0xE0 then 2
    else if b < 0xF0 then 3
    else if b < 0xF8 then 4
    else if b < 0xFC then 5
    else if b < 0xFE then 6
    else if b < 0xFF then 7
    else 8
  }

  /** `n` consecutive escaped octets at the start of `s`. */
  function EscapedOctets(s: string, n: nat): (r: Option<seq<byte>>)
    ensures r.Some? ==> |r.value| == n && 3 * n <= |s|
  {
    if n == 0 then Some([])
    else match EscapedOctet(s)
      case None => None
      case Some(b) =>
        match EscapedOctets(s[3..], n - 1)
        case None => None
        case Some(rest) => Some([b] + rest)
  }

  predicate Continuation(b: byte) {
    0x80 <= b < 0xC0
  }

  /**
   * The code point whose UTF-8 encoding the octets are, or `None` when they are
   * not a valid encoding (a bad lead or continuation octet, an overlong form, a
   * surrogate, or a value above U+10FFFF).
   */
  function Utf8Decode(bs: seq<byte>): Option<char> {
    if |bs| == 1 && bs[0] < 0x80 then
      Some(bs[0] as char)
    else if |bs| == 2 && 0xC0 <= bs[0] < 0xE0 && Continuation(bs[1]) then
      var v := Payload2(bs[0] - 0xC0, bs[1] - 0x80);
      if v >= 0x80 then Some(v as char) else None
    else if |bs| == 3 && 0xE0 <= bs[0] < 0xF0 && Continuation(bs[1]) && Continuation(bs[2]) then
      var v := Payload3(bs[0] - 0xE0, bs[1] - 0x80, bs[2] - 0x80);
      if v >= 0x800 && !(0xD800 <= v < 0xE000) then Some(v as char) else None
    else if |bs| == 4 && 0xF0 <= bs[0] < 0xF8 && Continuation(bs[1]) && Continuation(bs[2]) && Continuation(bs[3]) then
      var v := Payload4(bs[0] - 0xF0, bs[1] - 0x80, bs[2] - 0x80, bs[3] - 0x80);
      if 0x1_0000 <= v <= 0x10_FFFF then Some(v as char) else None
    else
      None
  }

  /** The code point carried by the payload bits of a two-, three- or four-octet sequence. */
  function Payload2(a: int, b: int): (v: int)
    requires 0 <= a < 32 && 0 <= b < 64
    ensures 0 <= v < 0x800
  {
    a * 64 + b
  }

  function Payload3(a: int, b: int, c: int): (v: int)
    requires 0 <= a < 16 && 0 <= b < 64 && 0 <= c < 64
    ensures 0 <= v < 0x1_0000
  {
    (a * 64 + b) * 64 + c
  }

  function Payload4(a: int, b: int, c: int, d: int): (v: int)
    requires 0 <= a < 8 && 0 <= b < 64 && 0 <= c < 64 && 0 <= d < 64
    ensures 0 <= v < 0x20_0000
  {
    ((a * 64 + b) * 64 + c) * 64 + d
  }

  function Cons(c: char, r: Option<string>): Option<string> {
    match r
    case None => None
    case Some(t) => Some([c] + t)
  }

  /** `decodeURIComponent(s)`; `None` is the URIError it throws. */
  function Decode(s: string): Option<string>
    decreases |s|
  {
    if s == [] then Some([])
    else if s[0] != '%' then Cons(s[0], Decode(s[1..]))
    else match EscapedOctet(s)
      case None => None
      case Some(b) =>
        var n := LeadingOnes(b);
        if n == 0 then Cons(b as char, Decode(s[3..]))
        else if n == 1 || n > 4 then None
        else match EscapedOctets(s, n)
          case None => None
          case Some(octets) =>
            match Utf8Decode(octets)
            case None => None
            case Some(c) => Cons(c, Decode(s[3 * n..]))
  }

  lemma HexRoundTrip(d: int)
    requires 0 <= d < 16
    ensures HexValue(HexDigit(d)) == Some(d)
  {
  }

  lemma EscapeRoundTrip(b: byte, rest: string)
    ensures EscapedOctet(Escape(b) + rest) == Some(b)
  {
    HexRoundTrip(b / 16);
    HexRoundTrip(b % 16);
  }

  lemma {:induction false} EscapeAllRoundTrip(bs: seq<byte>, rest: string)
    ensures EscapedOctets(EscapeAll(bs) + rest, |bs|) == Some(bs)
  {
    if bs != [] {
      var s := EscapeAll(bs) + rest;
      assert s == Escape(bs[0]) + (EscapeAll(bs[1..]) + rest);
      EscapeRoundTrip(bs[0], EscapeAll(bs[1..]) + rest);
      assert s[3..] == EscapeAll(bs[1..]) + rest;
      EscapeAllRoundTrip(bs[1..], rest);
      assert [bs[0]] + bs[1..] == bs;
    }
  }

  /** Decoding the UTF-8 octets of a code point gives it back, and its lead octet announces their number. */
  lemma Utf8RoundTrip(c: char)
    ensures Utf8Decode(Utf8(c)) == Some(c)
    ensures LeadingOnes(Utf8(c)[0]) == if |Utf8(c)| == 1 then 0 else |Utf8(c)|
  {
    var v := c as int;
    if v < 0x80 {
    } else if v < 0x800 {
      Split2(v);
    } else if v < 0x1_0000 {
      Split3(v);
    } else {
      Split4(v);
    }
  }

  lemma Split2(v: int)
    requires 0x80 <= v < 0x800
    ensures v / 64 < 32 && Payload2(v / 64, v % 64) == v
  {
  }

  lemma Split3(v: int)
    requires 0x800 <= v < 0x1_0000
    ensures v / 4096 < 16 && Payload3(v / 4096, (v / 64) % 64, v % 64) == v
  {
    assert v / 64 == (v / 4096) * 64 + (v / 64) % 64;
  }

  lemma Split4(v: int)
    requires 0x1_0000 <= v < 0x11_0000
    ensures v / 262144 < 8 && Payload4(v / 262144, (v / 4096) % 64, (v / 64) % 64, v % 64) == v
  {
    assert v / 4096 == (v / 262144) * 64 + (v / 4096) % 64;
    assert v / 64 == (v / 4096) * 64 + (v / 64) % 64;
  }

  /** Decoding one escaped sequence of UTF-8 octets gives its code point, then decoding goes on after it. */
  lemma DecodeEscaped(s: string, bs: seq<byte>, c: char, rest: string)
    requires 1 <= |bs| <= 4 && |s| == 3 * |bs| + |rest| && s[3 * |bs|..] == rest
    requires s[0] == '%' && EscapedOctet(s) == Some(bs[0]) && EscapedOctets(s, |bs|) == Some(bs)
    requires Utf8Decode(bs) == Some(c)
    requires LeadingOnes(bs[0]) == if |bs| == 1 then 0 else |bs|
    ensures Decode(s) == Cons(c, Decode(rest))
  {
  }

  lemma DecodeEncodeEscaped(c: char, rest: string)
    requires !Unescaped(c)
    ensures Decode(EncodeChar(c) + rest) == Cons(c, Decode(rest))
  {
    var s := EncodeChar(c) + rest;
    var bs := Utf8(c);
    EscapeAllRoundTrip(bs, rest);
    assert s == Escape(bs[0]) + (EscapeAll(bs[1..]) + rest);
    EscapeRoundTrip(bs[0], EscapeAll(bs[1..]) + rest);
    Utf8RoundTrip(c);
    assert s[3 * |bs|..] == rest;
    DecodeEscaped(s, bs, c, rest);
  }

  lemma DecodeEncodeChar(c: char, rest: string)
    ensures Decode(EncodeChar(c) + rest) == Cons(c, Decode(rest))
  {
    if Unescaped(c) {
      var s := EncodeChar(c) + rest;
      assert s[0] == c && s[1..] == rest;
    } else {
      DecodeEncodeEscaped(c, rest);
    }
  }

  /** Round trip: `decodeURIComponent(encodeURIComponent(s)) == s`. */
  lemma {:induction false} DecodeEncode(s: string)
    ensures Decode(Encode(s)) == Some(s)
  {
    if s != [] {
      DecodeEncodeChar(s[0], Encode(s[1..]));
      DecodeEncode(s[1..]);
      assert [s[0]] + s[1..] == s;
    }
  }

  /** Every character of an encoding is unescaped or '%'. */
  lemma {:induction false} EncodeAlphabet(s: string)
    ensures forall c :: c in Encode(s) ==> Unescaped(c) || c == '%'
  {
    if s != [] {
      EncodeAlphabet(s[1..]);
      EscapeAllAlphabet(Utf8(s[0]));
    }
  }

  lemma {:induction false} EscapeAllAlphabet(bs: seq<byte>)
    ensures forall c :: c in EscapeAll(bs) ==> Unescaped(c) || c == '%'
  {
    if bs != [] {
      EscapeAllAlphabet(bs[1..]);
    }
  }

  /** The encoding holds none of the characters String.prototype.replace or a template treats specially. */
  lemma EncodeHasNoSpecials(s: string)
    ensures '{' !in Encode(s) && '}' !in Encode(s) && '$' !in Encode(s)
  {
    EncodeAlphabet(s);
  }

  /** An unescaped string is its own encoding. */
  lemma {:induction false} EncodeUnescaped(s: string)
    requires forall i :: 0 <= i < |s| ==> Unescaped(s[i])
    ensures Encode(s) == s
  {
    if s != [] {
      EncodeUnescaped(s[1..]);
      assert [s[0]] + s[1..] == s;
    }
  }
}
