/**
 * The pieces of PHP's runtime the client relies on: byte strings, the
 * `empty()` test on a nullable string, string conversion of NULL, and
 * `urlencode` (application/x-www-form-urlencoded, section 2.1 of RFC 3986
 * for the percent-encoding) together with its inverse `urldecode`.
 */
module Php {
  import opened Wrappers

  /** PHP strings are byte strings; a byte is a char below 256. */
  type Byte = c: char | c as int < 256 witness 'a'
  type PhpString = seq<Byte>

  /** PHP `empty()` on a string that may be NULL: NULL, "" and "0" are empty. */
  predicate Empty(v: Option<PhpString>)
    ensures Empty(v) <==> AsString(v) == "" || AsString(v) == "0"
  {
    v.None? || v.value == "" || v.value == "0"
  }

  /** PHP's `(string)` conversion of a nullable string: NULL becomes "". */
  function AsString(v: Option<PhpString>): (r: PhpString)
    ensures v.Some? ==> r == v.value
    ensures v.None? ==> r == ""
  {
    if v.Some? then v.value else ""
  }

  // ---------------------------------------------------------------------
  // urlencode / urldecode

  /** The bytes urlencode copies unchanged: ASCII letters and digits, '-', '_' and '.'. */
  predicate Unreserved(c: char) {
    ('0' <= c <= '9') || ('A' <= c <= 'Z') || ('a' <= c <= 'z') || c == '-' || c == '_' || c == '.'
  }

  /** The bytes that can appear in urlencode's output. */
  predicate UrlSafe(c: char) {
    Unreserved(c) || c == '+' || c == '%'
  }

  predicate IsHexDigit(c: char) {
    ('0' <= c <= '9') || ('A' <= c <= 'F') || ('a' <= c <= 'f')
  }

  /** The upper-case hex digit urlencode writes for a nibble. */
  function HexDigit(n: int): (c: Byte)
    requires 0 <= n < 16
    ensures IsHexDigit(c) && Unreserved(c)
    ensures !('a' <= c <= 'f')
  {
    if n < 10 then (('0' as int) + n) as char else (('A' as int) + n - 10) as char
  }

  /** The nibble urldecode reads from a hex digit of either case. */
  function HexValue(c: char): (n: int)
    requires IsHexDigit(c)
    ensures 0 <= n < 16
  {
    if '0' <= c <= '9' then c as int - '0' as int
    else if 'A' <= c <= 'F' then c as int - 'A' as int + 10
    else c as int - 'a' as int + 10
  }

  /** What urlencode writes for one byte. */
  function EncodeByte(b: Byte): (r: PhpString)
    ensures forall i :: 0 <= i < |r| ==> UrlSafe(r[i])
  {
    if Unreserved(b) then [b]
    else if b == ' ' then "+"
    else ['%', HexDigit(b as int / 16), HexDigit(b as int % 16)]
  }

  /** PHP `urlencode`. */
  function UrlEncode(s: PhpString): (r: PhpString)
    ensures |r| >= |s|
  {
    if s == [] then [] else EncodeByte(s[0]) + UrlEncode(s[1..])
  }

  /** urlencode writes only letters, digits and "-_.+%". */
  lemma {:induction false} UrlEncodeCharset(s: PhpString)
    ensures forall i :: 0 <= i < |UrlEncode(s)| ==> UrlSafe(UrlEncode(s)[i])
  {
    if s != [] {
      UrlEncodeCharset(s[1..]);
      var e, t := EncodeByte(s[0]), UrlEncode(s[1..]);
      assert UrlEncode(s) == e + t;
      forall i | 0 <= i < |e + t| ensures UrlSafe((e + t)[i]) {
        if i >= |e| { assert (e + t)[i] == t[i - |e|]; }
      }
    }
  }

  /** PHP `urldecode`: '+' is a space, '%' with two hex digits is a byte, anything else is itself. */
  function UrlDecode(s: PhpString): (r: PhpString)
    ensures |r| <= |s|
  {
    if s == [] then []
    else if s[0] == '+' then [' '] + UrlDecode(s[1..])
    else if s[0] == '%' && |s| >= 3 && IsHexDigit(s[1]) && IsHexDigit(s[2]) then
      [(16 * HexValue(s[1]) + HexValue(s[2])) as char] + UrlDecode(s[3..])
    else [s[0]] + UrlDecode(s[1..])
  }

  /** Decoding undoes the encoding of the first byte and leaves the rest to the recursion. */
  lemma DecodeEncodedByte(b: Byte, t: PhpString)
    ensures UrlDecode(EncodeByte(b) + t) == [b] + UrlDecode(t)
  {
  }

  /** urldecode inverts urlencode on every byte string. */
  lemma {:induction false} UrlRoundTrip(s: PhpString)
    ensures UrlDecode(UrlEncode(s)) == s
  {
    if s != [] {
      DecodeEncodedByte(s[0], UrlEncode(s[1..]));
      UrlRoundTrip(s[1..]);
    }
  }

  /** urlencode is injective: distinct byte strings never share an encoding. */
  lemma UrlEncodeInjective(s: PhpString, t: PhpString)
    requires UrlEncode(s) == UrlEncode(t)
    ensures s == t
  {
    UrlRoundTrip(s);
    UrlRoundTrip(t);
  }

  /** A string of unreserved bytes is its own encoding. */
  lemma {:induction false} UrlEncodeUnreserved(s: PhpString)
    requires forall i :: 0 <= i < |s| ==> Unreserved(s[i])
    ensures UrlEncode(s) == s
  {
    if s != [] {
      UrlEncodeUnreserved(s[1..]);
    }
  }

  /** urlencode works byte by byte, so it distributes over concatenation. */
  lemma {:induction false} UrlEncodeConcat(s: PhpString, t: PhpString)
    ensures UrlEncode(s + t) == UrlEncode(s) + UrlEncode(t)
  {
    if s == [] {
      assert s + t == t;
    } else {
      assert (s + t)[0] == s[0] && (s + t)[1..] == s[1..] + t;
      UrlEncodeConcat(s[1..], t);
    }
  }
}
