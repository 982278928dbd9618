/**
 * Text to bytes and back as the URL standard's query handling does it: UTF-8
 * (decoded as the Encoding standard's "UTF-8 decode without BOM", one U+FFFD
 * per maximal ill-formed subsequence), the `application/x-www-form-urlencoded`
 * serializer used by `URLSearchParams`, ECMAScript's `encodeURIComponent`, and
 * the percent-decoding of a query component.
 */
module UrlEncoding {
  import opened Text

  type Byte = b: int | 0 <= b < 256

  const REPLACEMENT: char := '\U{FFFD}'

  /** The UTF-8 bytes of one Unicode scalar value. */
  function Utf8(c: char): (bs: seq<Byte>)
    ensures 1 <= |bs| <= 4
    ensures (|bs| == 1) <==> (c as int) < 0x80
  {
    var cp := c as int;
    if cp < 0x80 then [cp]
    else if cp < 0x800 then [0xC0 + cp / 64, 0x80 + cp % 64]
    else if cp < 0x10000 then [0xE0 + cp / 4096, 0x80 + (cp / 64) % 64, 0x80 + cp % 64]
    else [0xF0 + cp / 262144, 0x80 + (cp / 4096) % 64, 0x80 + (cp / 64) % 64, 0x80 + cp % 64]
  }

  /** The UTF-8 bytes of a string. */
  function Utf8Of(s: string): seq<Byte> {
    if s == [] then [] else Utf8(s[0]) + Utf8Of(s[1..])
  }

  predicate IsContinuation(b: int) { 0x80 <= b <= 0xBF }

  /**
   * The first character of a byte sequence and how many bytes it used.  A lead
   * byte that is followed by fewer acceptable bytes than it announces yields
   * U+FFFD for the lead and the bytes accepted so far; the offending byte is
   * decoded afresh.
   */
  function DecodeChar(bs: seq<Byte>): (r: (char, nat))
    requires bs != []
    ensures 1 <= r.1 <= |bs| && r.1 <= 4
  {
    var b0: int := bs[0];
    var b1: int := if |bs| >= 2 then bs[1] else 0;
    var b2: int := if |bs| >= 3 then bs[2] else 0;
    var b3: int := if |bs| >= 4 then bs[3] else 0;
    if b0 < 0x80 then (b0 as char, 1)
    else if 0xC2 <= b0 <= 0xDF then
      if |bs| < 2 || !IsContinuation(b1) then (REPLACEMENT, 1)
      else (((b0 - 0xC0) * 64 + (b1 - 0x80)) as char, 2)
    else if 0xE0 <= b0 <= 0xEF then
      var lower := if b0 == 0xE0 then 0xA0 else 0x80;
      var upper := if b0 == 0xED then 0x9F else 0xBF;
      if |bs| < 2 || !(lower <= b1 <= upper) then (REPLACEMENT, 1)
      else if |bs| < 3 || !IsContinuation(b2) then (REPLACEMENT, 2)
      else (((b0 - 0xE0) * 4096 + (b1 - 0x80) * 64 + (b2 - 0x80)) as char, 3)
    else if 0xF0 <= b0 <= 0xF4 then
      var lower := if b0 == 0xF0 then 0x90 else 0x80;
      var upper := if b0 == 0xF4 then 0x8F else 0xBF;
      if |bs| < 2 || !(lower <= b1 <= upper) then (REPLACEMENT, 1)
      else if |bs| < 3 || !IsContinuation(b2) then (REPLACEMENT, 2)
      else if |bs| < 4 || !IsContinuation(b3) then (REPLACEMENT, 3)
      else (((b0 - 0xF0) * 262144 + (b1 - 0x80) * 4096 + (b2 - 0x80) * 64 + (b3 - 0x80)) as char, 4)
    else (REPLACEMENT, 1)
  }

  /** UTF-8 decode without BOM handling, replacing ill-formed input. */
  function DecodeUtf8(bs: seq<Byte>): string
    decreases |bs|
  {
    if bs == [] then ""
    else
      var (c, n) := DecodeChar(bs);
      [c] + DecodeUtf8(bs[n..])
  }

  lemma DecodeTwoBytes(c: char, rest: seq<Byte>)
    requires 0x80 <= c as int < 0x800
    ensures DecodeChar(Utf8(c) + rest) == (c, 2)
  {
    var cp := c as int;
    var bs := Utf8(c) + rest;
    var b0: int, b1: int := bs[0], bs[1];
    assert b0 == 0xC0 + cp / 64 && b1 == 0x80 + cp % 64;
    assert 0xC2 <= b0 <= 0xDF && IsContinuation(b1);
    assert (b0 - 0xC0) * 64 + (b1 - 0x80) == cp;
  }

  lemma DecodeThreeBytes(c: char, rest: seq<Byte>)
    requires 0x800 <= c as int < 0x10000
    ensures DecodeChar(Utf8(c) + rest) == (c, 3)
  {
    var cp := c as int;
    var bs := Utf8(c) + rest;
    var b0: int, b1: int, b2: int := bs[0], bs[1], bs[2];
    var hi, mid, lo := cp / 4096, (cp / 64) % 64, cp % 64;
    assert hi * 4096 + mid * 64 + lo == cp;
    assert b0 == 0xE0 + hi && b1 == 0x80 + mid && b2 == 0x80 + lo;
    assert b0 == 0xE0 ==> mid >= 32;
    assert b0 == 0xED ==> mid < 32;
    assert (b0 - 0xE0) * 4096 + (b1 - 0x80) * 64 + (b2 - 0x80) == cp;
  }

  /** The four 6-bit-or-smaller digits of a supplementary code point, as its UTF-8 bytes carry them. */
  lemma SupplementaryDigits(cp: int)
    requires 0x10000 <= cp <= 0x10FFFF && !(0xD800 <= cp < 0xE000)
    ensures var top, hi, mid, lo := cp / 262144, (cp / 4096) % 64, (cp / 64) % 64, cp % 64;
      && top * 262144 + hi * 4096 + mid * 64 + lo == cp
      && 0 <= top <= 4 && (top == 0 ==> hi >= 16) && (top == 4 ==> hi < 16)
  {
    var q := cp / 64;
    var q2 := q / 64;
    assert cp == q * 64 + cp % 64;
    assert q == q2 * 64 + q % 64;
    assert q2 == (q2 / 64) * 64 + q2 % 64;
    assert cp / 4096 == q2;
    assert cp / 262144 == q2 / 64;
  }

  lemma DecodeFourBytes(c: char, rest: seq<Byte>)
    requires 0x10000 <= c as int
    ensures DecodeChar(Utf8(c) + rest) == (c, 4)
  {
    var cp := c as int;
    SupplementaryDigits(cp);
    var bs := Utf8(c) + rest;
    var b0: int, b1: int, b2: int, b3: int := bs[0], bs[1], bs[2], bs[3];
    var top, hi, mid, lo := cp / 262144, (cp / 4096) % 64, (cp / 64) % 64, cp % 64;
    assert b0 == 0xF0 + top && b1 == 0x80 + hi && b2 == 0x80 + mid && b3 == 0x80 + lo;
    assert (b0 - 0xF0) * 262144 + (b1 - 0x80) * 4096 + (b2 - 0x80) * 64 + (b3 - 0x80) == cp;
  }

  /** A character's own bytes decode to that character, whatever follows. */
  lemma DecodeCharOfUtf8(c: char, rest: seq<Byte>)
    ensures DecodeChar(Utf8(c) + rest) == (c, |Utf8(c)|)
  {
    var cp := c as int;
    if cp < 0x80 {
    } else if cp < 0x800 {
      DecodeTwoBytes(c, rest);
    } else if cp < 0x10000 {
      DecodeThreeBytes(c, rest);
    } else {
      DecodeFourBytes(c, rest);
    }
  }

  /** Decoding the UTF-8 bytes of a string gives the string back. */
  lemma {:induction false} DecodeUtf8Of(s: string)
    ensures DecodeUtf8(Utf8Of(s)) == s
  {
    if s != [] {
      var bs := Utf8Of(s);
      DecodeCharOfUtf8(s[0], Utf8Of(s[1..]));
      assert bs[|Utf8(s[0])|..] == Utf8Of(s[1..]);
      DecodeUtf8Of(s[1..]);
    }
  }

  // ---------------------------------------------------------------------------
  // Percent-encoding

  /** An upper-case hexadecimal digit, as both serializers write them. */
  function HexChar(d: int): (c: char)
    requires 0 <= d < 16
  {
    if d < 10 then ('0' as int + d) as char else ('A' as int + d - 10) as char
  }

  predicate IsHexDigit(c: char) { IsDigit(c) || 'A' <= c <= 'F' || 'a' <= c <= 'f' }

  function HexValue(c: char): (v: int)
    requires IsHexDigit(c)
    ensures 0 <= v < 16
  {
    if IsDigit(c) then c as int - '0' as int
    else if 'A' <= c <= 'F' then c as int - 'A' as int + 10
    else c as int - 'a' as int + 10
  }

  lemma HexCharValue(d: int)
    requires 0 <= d < 16
    ensures IsHexDigit(HexChar(d)) && HexValue(HexChar(d)) == d
  {
  }

  /** `%XY` for each byte. */
  function Percents(bs: seq<Byte>): (s: string)
    ensures |s| == 3 * |bs|
    ensures forall i :: 0 <= i < |s| ==> s[i] == '%' || IsDigit(s[i]) || 'A' <= s[i] <= 'F'
  {
    if bs == [] then "" else ['%', HexChar(bs[0] / 16), HexChar(bs[0] % 16)] + Percents(bs[1..])
  }

  /** The characters the form serializer keeps as they are. */
  predicate FormSafe(c: char) { IsAsciiLetter(c) || IsDigit(c) || c == '*' || c == '-' || c == '.' || c == '_' }

  /** The characters `encodeURIComponent` keeps as they are. */
  predicate UriSafe(c: char) {
    IsAsciiLetter(c) || IsDigit(c) || c == '-' || c == '_' || c == '.' || c == '!' || c == '~'
    || c == '*' || c == '\'' || c == '(' || c == ')'
  }

  function FormEncodeChar(c: char): string {
    if c == ' ' then "+" else if FormSafe(c) then [c] else Percents(Utf8(c))
  }

  /** The `application/x-www-form-urlencoded` serializer's encoding of one name or value. */
  function FormEncode(s: string): (e: string)
    ensures forall i :: 0 <= i < |e| ==> FormSafe(e[i]) || e[i] == '+' || e[i] == '%'
  {
    if s == [] then "" else FormEncodeChar(s[0]) + FormEncode(s[1..])
  }

  /** A serialized name or value never holds the separators of a query. */
  lemma FormEncodeHasNoSeparators(s: string)
    ensures '&' !in FormEncode(s) && '=' !in FormEncode(s)
  {
  }

  /** `encodeURIComponent`. */
  function EncodeUriComponent(s: string): (e: string)
    ensures forall i :: 0 <= i < |e| ==> UriSafe(e[i]) || e[i] == '%'
  {
    if s == [] then "" else (if UriSafe(s[0]) then [s[0]] else Percents(Utf8(s[0]))) + EncodeUriComponent(s[1..])
  }

  /**
   * The bytes of a query name or value: `+` is a space, `%` with two hex digits
   * is that byte, anything else (a stray `%` included) is its own UTF-8.
   */
  function FormBytes(s: string): seq<Byte>
    decreases |s|
  {
    if s == [] then []
    else if s[0] == '%' && |s| >= 3 && IsHexDigit(s[1]) && IsHexDigit(s[2]) then
      [HexValue(s[1]) * 16 + HexValue(s[2])] + FormBytes(s[3..])
    else if s[0] == '+' then [0x20] + FormBytes(s[1..])
    else Utf8(s[0]) + FormBytes(s[1..])
  }

  /** How a query name or value is read back. */
  function FormDecode(s: string): string {
    DecodeUtf8(FormBytes(s))
  }

  lemma {:induction false} PercentsBytes(bs: seq<Byte>, rest: string)
    ensures FormBytes(Percents(bs) + rest) == bs + FormBytes(rest)
  {
    if bs != [] {
      var b := bs[0];
      var tail := Percents(bs[1..]) + rest;
      assert Percents(bs) + rest == ['%', HexChar(b / 16), HexChar(b % 16)] + tail;
      calc {
        FormBytes(Percents(bs) + rest);
        { PercentBytes(b, tail); }
        [b] + FormBytes(tail);
        { PercentsBytes(bs[1..], rest); }
        [b] + (bs[1..] + FormBytes(rest));
        ([b] + bs[1..]) + FormBytes(rest);
        { assert [b] + bs[1..] == bs; }
        bs + FormBytes(rest);
      }
    } else {
      assert Percents(bs) + rest == rest;
    }
  }

  /** One `%XY` escape reads back as its byte. */
  lemma PercentBytes(b: Byte, tail: string)
    ensures FormBytes(['%', HexChar(b / 16), HexChar(b % 16)] + tail) == [b] + FormBytes(tail)
  {
    HexCharValue(b / 16);
    HexCharValue(b % 16);
    var s := ['%', HexChar(b / 16), HexChar(b % 16)] + tail;
    assert s[0] == '%' && s[1] == HexChar(b / 16) && s[2] == HexChar(b % 16);
    assert s[3..] == tail;
    assert HexValue(s[1]) * 16 + HexValue(s[2]) == b;
  }

  /** A kept character is neither `%` nor `+`, so it reads back as its own bytes. */
  lemma PlainCharBytes(c: char, rest: string)
    requires c != '%' && c != '+'
    ensures FormBytes([c] + rest) == Utf8(c) + FormBytes(rest)
  {
    assert ([c] + rest)[1..] == rest;
  }

  lemma FormEncodeCharBytes(c: char, rest: string)
    ensures FormBytes(FormEncodeChar(c) + rest) == Utf8(c) + FormBytes(rest)
  {
    if c == ' ' {
      assert ("+" + rest)[1..] == rest;
    } else if FormSafe(c) {
      PlainCharBytes(c, rest);
    } else {
      PercentsBytes(Utf8(c), rest);
    }
  }

  lemma {:induction false} FormBytesOfEncode(s: string)
    ensures FormBytes(FormEncode(s)) == Utf8Of(s)
  {
    if s != [] {
      FormEncodeCharBytes(s[0], FormEncode(s[1..]));
      FormBytesOfEncode(s[1..]);
    }
  }

  /** Reading back a serialized name or value gives the original string. */
  lemma FormRoundTrip(s: string)
    ensures FormDecode(FormEncode(s)) == s
  {
    FormBytesOfEncode(s);
    DecodeUtf8Of(s);
  }

  lemma {:induction false} FormBytesOfUriComponent(s: string)
    ensures FormBytes(EncodeUriComponent(s)) == Utf8Of(s)
  {
    if s != [] {
      var rest := EncodeUriComponent(s[1..]);
      if UriSafe(s[0]) {
        PlainCharBytes(s[0], rest);
      } else {
        PercentsBytes(Utf8(s[0]), rest);
      }
      FormBytesOfUriComponent(s[1..]);
    }
  }

  /** A component escaped with `encodeURIComponent` is read back unchanged by the query parser. */
  lemma UriComponentRoundTrip(s: string)
    ensures FormDecode(EncodeUriComponent(s)) == s
  {
    FormBytesOfUriComponent(s);
    DecodeUtf8Of(s);
  }
}
