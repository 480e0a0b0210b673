/** `encodeURIComponent`: every character outside the ECMAScript
    uriUnreserved set is written as the percent-encoded bytes of its UTF-8
    form, with upper-case hexadecimal digits (section 2.1 of RFC 3986). */
module UriEncoding {

  /** Letters, digits and `- _ . ! ~ * ' ( )`. */
  predicate IsUnreserved(c: char) {
    ('A' <= c <= 'Z') || ('a' <= c <= 'z') || ('0' <= c <= '9') ||
    c == '-' || c == '_' || c == '.' || c == '!' || c == '~' || c == '*' ||
    c == '\'' || c == '(' || c == ')'
  }

  predicate IsByte(b: int) {
    0 <= b < 256
  }

  /** The UTF-8 encoding of one Unicode scalar value. */
  function Utf8Bytes(c: char): (bs: seq<int>)
    ensures 1 <= |bs| <= 4
    ensures forall i :: 0 <= i < |bs| ==> IsByte(bs[i])
    ensures c as int < 0x80 ==> bs == [c as int]
  {
    var n := c as int;
    if n < 0x80 then [n]
    else if n < 0x800 then [0xC0 + n / 0x40, 0x80 + n % 0x40]
    else if n < 0x10000 then [0xE0 + n / 0x1000, 0x80 + (n / 0x40) % 0x40, 0x80 + n % 0x40]
    else [0xF0 + n / 0x40000, 0x80 + (n / 0x1000) % 0x40, 0x80 + (n / 0x40) % 0x40, 0x80 + n % 0x40]
  }

  function HexChar(d: int): (c: char)
    requires 0 <= d < 16
    ensures IsUnreserved(c)
  {
    if d < 10 then ('0' as int + d) as char else ('A' as int + d - 10) as char
  }

  /** The `%XX` escape of one byte. */
  function PercentByte(b: int): string
    requires IsByte(b)
  {
    ['%', HexChar(b / 16), HexChar(b % 16)]
  }

  function PercentBytes(bs: seq<int>): (r: string)
    requires forall i :: 0 <= i < |bs| ==> IsByte(bs[i])
    ensures |r| == 3 * |bs|
    ensures forall i :: 0 <= i < |r| ==> IsUnreserved(r[i]) || r[i] == '%'
  {
    if bs == [] then [] else PercentByte(bs[0]) + PercentBytes(bs[1..])
  }

  function EncodeChar(c: char): (r: string)
    ensures |r| >= 1
    ensures forall i :: 0 <= i < |r| ==> IsUnreserved(r[i]) || r[i] == '%'
  {
    if IsUnreserved(c) then [c] else PercentBytes(Utf8Bytes(c))
  }

  /** `encodeURIComponent(s)`: the result holds only unreserved characters and
      `%`, and is never shorter than `s`. */
  function EncodeURIComponent(s: string): (r: string)
    ensures forall i :: 0 <= i < |r| ==> IsUnreserved(r[i]) || r[i] == '%'
    ensures |s| <= |r|
  {
    if s == [] then [] else EncodeChar(s[0]) + EncodeURIComponent(s[1..])
  }

  /** A string made only of unreserved characters is its own encoding. */
  lemma {:induction false} EncodeUnreservedIsIdentity(s: string)
    requires forall i :: 0 <= i < |s| ==> IsUnreserved(s[i])
    ensures EncodeURIComponent(s) == s
  {
    if s != [] {
      EncodeUnreservedIsIdentity(s[1..]);
    }
  }

  // ---------------------------------------------------------------------------
  // Decoding, the inverse on ASCII text

  predicate IsHexDigit(c: char) {
    ('0' <= c <= '9') || ('A' <= c <= 'F') || ('a' <= c <= 'f')
  }

  function HexValue(c: char): (d: int)
    ensures 0 <= d < 16
  {
    if '0' <= c <= '9' then c as int - '0' as int
    else if 'A' <= c <= 'F' then c as int - 'A' as int + 10
    else if 'a' <= c <= 'f' then c as int - 'a' as int + 10
    else 0
  }

  /** Replaces every `%XX` escape by the character whose code is the byte XX
      and keeps every other character; for ASCII text this is
      `decodeURIComponent`. */
  function PercentDecode(s: string): string
    decreases |s|
  {
    if |s| >= 3 && s[0] == '%' && IsHexDigit(s[1]) && IsHexDigit(s[2]) then
      [(16 * HexValue(s[1]) + HexValue(s[2])) as char] + PercentDecode(s[3..])
    else if s == [] then []
    else [s[0]] + PercentDecode(s[1..])
  }

  lemma DecodePlainStep(c: char, tail: string)
    requires c != '%'
    ensures PercentDecode([c] + tail) == [c] + PercentDecode(tail)
  {
    assert ([c] + tail)[1..] == tail;
  }

  lemma DecodeEscapeStep(b: int, tail: string)
    requires IsByte(b)
    ensures PercentDecode(PercentByte(b) + tail) == [b as char] + PercentDecode(tail)
  {
    var e := PercentByte(b) + tail;
    assert HexValue(HexChar(b / 16)) == b / 16;
    assert HexValue(HexChar(b % 16)) == b % 16;
    assert e[3..] == tail;
  }

  /** Decoding undoes encoding on ASCII text: the query can be read back from
      a link built with `encodeURIComponent`. */
  lemma {:induction false} DecodeEncodeAscii(s: string)
    requires forall i :: 0 <= i < |s| ==> s[i] as int < 0x80
    ensures PercentDecode(EncodeURIComponent(s)) == s
  {
    if s != [] {
      var c, tail := s[0], EncodeURIComponent(s[1..]);
      DecodeEncodeAscii(s[1..]);
      if IsUnreserved(c) {
        DecodePlainStep(c, tail);
      } else {
        var n := c as int;
        assert [n][1..] == [];
        assert EncodeChar(c) == PercentByte(n);
        DecodeEscapeStep(n, tail);
      }
      assert s == [c] + s[1..];
    }
  }
}
