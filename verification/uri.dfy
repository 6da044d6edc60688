/**
 * `encodeURIComponent`: every character outside the unreserved set is replaced by
 * the percent-escaped bytes of its UTF-8 encoding. Its partner is the percent
 * decoding a server applies to a query parameter.
 */
module UriEncoding {
  import opened Wrappers

  type Byte = b: int | 0 <= b < 256

  /** The characters `encodeURIComponent` leaves as they are. */
  predicate IsUnreserved(c: char) {
    ('A' <= c <= 'Z') || ('a' <= c <= 'z') || ('0' <= c <= '9') ||
    c == '-' || c == '_' || c == '.' || c == '!' || c == '~' || c == '*' || c == '\'' || c == '(' || c == ')'
  }

  predicate IsHexDigit(c: char) {
    ('0' <= c <= '9') || ('A' <= c <= 'F') || ('a' <= c <= 'f')
  }

  /** Upper-case hexadecimal digit for 0..15, as the escapes are written. */
  function HexDigit(d: nat): (c: char)
    requires d < 16
    ensures IsHexDigit(c) && IsUnreserved(c)
  {
    if d < 10 then ('0' as int + d) as char else ('A' as int + d - 10) as char
  }

  function HexValue(c: char): (d: nat)
    requires IsHexDigit(c)
    ensures d < 16
  {
    if '0' <= c <= '9' then c as int - '0' as int
    else if 'A' <= c <= 'F' then c as int - 'A' as int + 10
    else c as int - 'a' as int + 10
  }

  lemma HexValueOfDigit(d: nat)
    requires d < 16
    ensures HexValue(HexDigit(d)) == d
  {
  }

  /** The UTF-8 encoding of one Unicode scalar value (one to four bytes). */
  function Utf8(c: char): (bs: seq<Byte>)
    ensures 1 <= |bs| <= 4
    ensures (c as int < 0x80) <==> (|bs| == 1)
  {
    var n := c as int;
    if n < 0x80 then [n]
    else if n < 0x800 then [0xC0 + n / 0x40, 0x80 + n % 0x40]
    else if n < 0x10000 then [0xE0 + n / 0x1000, 0x80 + (n / 0x40) % 0x40, 0x80 + n % 0x40]
    else [0xF0 + n / 0x40000, 0x80 + (n / 0x1000) % 0x40, 0x80 + (n / 0x40) % 0x40, 0x80 + n % 0x40]
  }

  function Utf8String(s: string): seq<Byte> {
    if s == [] then [] else Utf8(s[0]) + Utf8String(s[1..])
  }

  /** The three-character escape `%XY` of one byte. */
  function PercentByte(b: Byte): string {
    ['%', HexDigit(b / 16), HexDigit(b % 16)]
  }

  function PercentBytes(bs: seq<Byte>): (r: string)
    ensures forall k :: 0 <= k < |r| ==> IsUnreserved(r[k]) || r[k] == '%'
  {
    if bs == [] then "" else PercentByte(bs[0]) + PercentBytes(bs[1..])
  }

  function EncodeChar(c: char): string {
    if IsUnreserved(c) then [c] else PercentBytes(Utf8(c))
  }

  /** `encodeURIComponent`: its output consists of unreserved characters and `%` only. */
  function EncodeURIComponent(s: string): (r: string)
    ensures forall k :: 0 <= k < |r| ==> IsUnreserved(r[k]) || r[k] == '%'
  {
    if s == [] then "" else EncodeChar(s[0]) + EncodeURIComponent(s[1..])
  }

  /** The characters that delimit a URL or its query never survive encoding. */
  lemma EncodedHasNoDelimiters(s: string)
    ensures var r := EncodeURIComponent(s); '&' !in r && '?' !in r && '=' !in r && '#' !in r && ' ' !in r && '/' !in r
  {
    var r := EncodeURIComponent(s);
    forall k | 0 <= k < |r|
      ensures !IsDelimiter(r[k])
    {
      assert IsUnreserved(r[k]) || r[k] == '%';
    }
  }

  predicate IsDelimiter(c: char) {
    c == '&' || c == '?' || c == '=' || c == '#' || c == ' ' || c == '/'
  }

  /** Text made only of unreserved characters is left unchanged. */
  lemma {:induction false} EncodeKeepsUnreserved(s: string)
    requires forall k :: 0 <= k < |s| ==> IsUnreserved(s[k])
    ensures EncodeURIComponent(s) == s
  {
    if s != [] {
      EncodeKeepsUnreserved(s[1..]);
      assert [s[0]] + s[1..] == s;
    }
  }

  /** Percent-decoding to bytes: `%XY` gives byte XY, any other character its UTF-8 bytes. */
  function PercentDecode(s: string): Option<seq<Byte>> {
    if s == [] then Some([])
    else if s[0] == '%' then
      if |s| >= 3 && IsHexDigit(s[1]) && IsHexDigit(s[2]) then
        match PercentDecode(s[3..])
        case None => None
        case Some(rest) => Some([HexValue(s[1]) * 16 + HexValue(s[2])] + rest)
      else None
    else
      match PercentDecode(s[1..])
      case None => None
      case Some(rest) => Some(Utf8(s[0]) + rest)
  }

  /** One escape decodes to its byte. */
  lemma DecodePercentByte(b: Byte, rest: string)
    requires PercentDecode(rest).Some?
    ensures PercentDecode(PercentByte(b) + rest) == Some([b] + PercentDecode(rest).value)
  {
    var s := PercentByte(b) + rest;
    assert s[0] == '%' && s[1] == HexDigit(b / 16) && s[2] == HexDigit(b % 16);
    assert s[3..] == rest;
    HexValueOfDigit(b / 16);
    HexValueOfDigit(b % 16);
  }

  lemma {:induction false} DecodePercentBytes(bs: seq<Byte>, rest: string)
    requires PercentDecode(rest).Some?
    ensures PercentDecode(PercentBytes(bs) + rest) == Some(bs + PercentDecode(rest).value)
  {
    if bs == [] {
      assert PercentBytes(bs) + rest == rest;
      assert bs + PercentDecode(rest).value == PercentDecode(rest).value;
    } else {
      var tail := PercentBytes(bs[1..]) + rest;
      var v := PercentDecode(rest).value;
      assert PercentDecode(tail) == Some(bs[1..] + v) by {
        DecodePercentBytes(bs[1..], rest);
      }
      assert PercentBytes(bs) + rest == PercentByte(bs[0]) + tail;
      assert PercentDecode(PercentByte(bs[0]) + tail) == Some([bs[0]] + (bs[1..] + v)) by {
        DecodePercentByte(bs[0], tail);
      }
      assert [bs[0]] + (bs[1..] + v) == bs + v;
    }
  }

  /** Decoding what `encodeURIComponent` produced recovers the UTF-8 bytes of the original text. */
  lemma {:induction false} DecodeEncode(s: string)
    ensures PercentDecode(EncodeURIComponent(s)) == Some(Utf8String(s))
  {
    if s != [] {
      DecodeEncode(s[1..]);
      var tail := EncodeURIComponent(s[1..]);
      if IsUnreserved(s[0]) {
        assert ([s[0]] + tail)[1..] == tail;
      } else {
        DecodePercentBytes(Utf8(s[0]), tail);
      }
    }
  }
}
