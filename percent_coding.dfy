/**
 * Percent-encoding of URL path text (section 2.1 of RFC 3986): a `%` followed
 * by two hexadecimal digits stands for the octet those digits denote. The
 * initializer of the object-storage source decodes the encoded URL path with
 * it, turning `%7B` and `%7D` back into the braces of path templates.
 */
module PercentCoding {

  predicate IsHexDigit(c: char)
  {
    ('0' <= c <= '9') || ('A' <= c <= 'F') || ('a' <= c <= 'f')
  }

  function HexValue(c: char): (v: nat)
    requires IsHexDigit(c)
    ensures v < 16
  {
    if '0' <= c <= '9' then c as int - '0' as int
    else if 'A' <= c <= 'F' then c as int - 'A' as int + 10
    else c as int - 'a' as int + 10
  }

  /** The upper-case hexadecimal digit for `v`, as section 2.1 of RFC 3986 recommends. */
  function HexDigit(v: nat): (c: char)
    requires v < 16
    ensures IsHexDigit(c) && HexValue(c) == v
  {
    if v < 10 then ('0' as int + v) as char else ('A' as int + v - 10) as char
  }

  /** True when `s` starts with a well-formed escape `%HH`. */
  predicate StartsWithEscape(s: string)
  {
    |s| >= 3 && s[0] == '%' && IsHexDigit(s[1]) && IsHexDigit(s[2])
  }

  /**
   * Percent-decoding: every well-formed escape becomes the character whose
   * code is the escaped octet; every other character, a `%` that does not
   * start a well-formed escape included, is kept as it is.
   */
  function Decode(s: string): (r: string)
    ensures |r| <= |s|
    ensures '%' !in s ==> r == s
    decreases |s|
  {
    if |s| == 0 then ""
    else if StartsWithEscape(s) then
      [(HexValue(s[1]) * 16 + HexValue(s[2])) as char] + Decode(s[3..])
    else
      [s[0]] + Decode(s[1..])
  }

  /** Characters left as they are by `Encode`: the unreserved characters of
      section 2.3 of RFC 3986, the path separator `/`, and characters beyond
      one octet, which have no single escape. */
  predicate KeptLiteral(c: char)
  {
    || ('a' <= c <= 'z') || ('A' <= c <= 'Z') || ('0' <= c <= '9')
    || c == '-' || c == '.' || c == '_' || c == '~' || c == '/'
    || c as int >= 256
  }

  function EncodeChar(c: char): (r: string)
  {
    if KeptLiteral(c) then [c]
    else ['%', HexDigit(c as int / 16), HexDigit(c as int % 16)]
  }

  /** Percent-encoding of every octet-sized character outside `KeptLiteral`. */
  function Encode(s: string): (r: string)
    decreases |s|
  {
    if |s| == 0 then "" else EncodeChar(s[0]) + Encode(s[1..])
  }

  /** A character other than `%` is copied by decoding. */
  lemma DecodeLiteral(c: char, rest: string)
    requires c != '%'
    ensures Decode([c] + rest) == [c] + Decode(rest)
  {
    var s := [c] + rest;
    assert s[1..] == rest;
  }

  /** A well-formed escape is decoded to the octet it denotes. */
  lemma DecodeEscape(hi: nat, lo: nat, rest: string)
    requires hi < 16 && lo < 16
    ensures Decode(['%', HexDigit(hi), HexDigit(lo)] + rest) == [(hi * 16 + lo) as char] + Decode(rest)
  {
    var s := ['%', HexDigit(hi), HexDigit(lo)] + rest;
    assert StartsWithEscape(s);
    assert s[3..] == rest;
  }

  /** Decoding undoes encoding: a path segment holding template braces or any
      other reserved character survives the round trip. */
  lemma {:induction false} DecodeEncode(s: string)
    ensures Decode(Encode(s)) == s
    decreases |s|
  {
    if |s| > 0 {
      var c := s[0];
      var tail := Encode(s[1..]);
      DecodeEncode(s[1..]);
      assert Encode(s) == EncodeChar(c) + tail;
      if KeptLiteral(c) {
        DecodeLiteral(c, tail);
      } else {
        var hi, lo := c as int / 16, c as int % 16;
        DecodeEscape(hi, lo, tail);
      }
      assert [c] + s[1..] == s;
    }
  }

  /** The path of the source URI `/a%7Bb%7D/c`, without its leading `/`, decodes to `a{b}/c`. */
  lemma DecodeTemplatePath()
    ensures Decode("a%7Bb%7D/c") == "a{b}/c"
  {
    assert Encode("a{b}/c") == "a%7Bb%7D/c" by {
      assert EncodeChar('{') == "%7B" && EncodeChar('}') == "%7D";
      assert Encode("/c") == "/c";
    }
    DecodeEncode("a{b}/c");
  }
}
