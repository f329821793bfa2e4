/**
 * The behaviour of the Java platform and library calls that the core relies
 * on: fixed-width integers and `long` increment, `Character.isWhitespace`,
 * `StringUtils.isBlank`, `Integer.parseInt`, `String.split("\\.")` and
 * `Joiner.on(".").join`.
 */
module JavaLang {
  import opened Wrappers

  const INT_MIN: int := -0x8000_0000
  const INT_MAX: int := 0x7FFF_FFFF
  const LONG_MIN: int := -0x8000_0000_0000_0000
  const LONG_MAX: int := 0x7FFF_FFFF_FFFF_FFFF
  const TWO_TO_64: int := 0x1_0000_0000_0000_0000

  /** Java `int` and `Integer` values. */
  type int32 = x: int | INT_MIN <= x <= INT_MAX
  /** Java `long` values. */
  type int64 = x: int | LONG_MIN <= x <= LONG_MAX

  // ---------------------------------------------------------------------
  // long arithmetic

  /** The `long` that a mathematical integer becomes in two's complement. */
  function Wrap64(y: int): (r: int64)
    ensures (r - y) % TWO_TO_64 == 0
    ensures LONG_MIN <= y <= LONG_MAX ==> r == y
  {
    (y - LONG_MIN) % TWO_TO_64 + LONG_MIN
  }

  /** Java's `x++` on a `long` field. */
  function Incr64(x: int64): (r: int64)
    ensures r == Wrap64(x + 1)
  {
    if x == LONG_MAX then LONG_MIN else x + 1
  }

  /** The value after `n` consecutive `x++`. */
  function Increments(x: int64, n: nat): int64
  {
    if n == 0 then x else Incr64(Increments(x, n - 1))
  }

  /** `n` consecutive increments add `n`, modulo 2^64. */
  lemma {:induction false} IncrementsWrap(x: int64, n: nat)
    ensures Increments(x, n) == Wrap64(x + n)
  {
    if n > 0 {
      IncrementsWrap(x, n - 1);
      WrapSucc(x + n - 1);
    }
  }

  /** Without overflow, `n` consecutive increments add exactly `n`: the counter only grows. */
  lemma IncrementsAdd(x: int64, n: nat)
    requires x + n <= LONG_MAX
    ensures Increments(x, n) == x + n
    ensures Increments(x, n) >= x
  {
    IncrementsWrap(x, n);
  }

  lemma WrapSucc(y: int)
    ensures Incr64(Wrap64(y)) == Wrap64(y + 1)
  {
    var k := (y - LONG_MIN) % TWO_TO_64;
    var q := (y - LONG_MIN) / TWO_TO_64;
    assert y - LONG_MIN == q * TWO_TO_64 + k;
    if k == TWO_TO_64 - 1 {
      assert y + 1 - LONG_MIN == (q + 1) * TWO_TO_64;
    } else {
      assert y + 1 - LONG_MIN == q * TWO_TO_64 + (k + 1);
    }
  }

  // ---------------------------------------------------------------------
  // Whitespace and blank strings

  /** `Character.isWhitespace` as in Java 8 (Unicode 6.2): space, line and
      paragraph separators other than the no-break spaces U+00A0, U+2007 and
      U+202F, and the ASCII controls TAB, LF, VT, FF, CR and FS, GS, RS, US.
      U+180E is a space separator in that Unicode version. */
  predicate IsJavaWhitespace(c: char)
    ensures c == ' ' || c == '\t' || c == '\n' ==> IsJavaWhitespace(c)
    ensures IsJavaWhitespace(c) ==> c != '\U{A0}' && c != '\U{2007}' && c != '\U{202F}'
    ensures IsJavaWhitespace(c) ==> !IsDigit(c) && c != '-' && c != '+'
  {
    var u := c as int;
    || u == 0x20
    || 0x09 <= u <= 0x0D
    || 0x1C <= u <= 0x1F
    || u == 0x1680
    || u == 0x180E
    || 0x2000 <= u <= 0x2006
    || 0x2008 <= u <= 0x200A
    || u == 0x2028 || u == 0x2029 || u == 0x205F || u == 0x3000
  }

  /** `StringUtils.isBlank` on a non-null string. */
  function StringIsBlank(s: string): (blank: bool)
    ensures blank <==> forall i :: 0 <= i < |s| ==> IsJavaWhitespace(s[i])
    ensures s == [] ==> blank
    decreases |s|
  {
    |s| == 0 || (IsJavaWhitespace(s[0]) && StringIsBlank(s[1..]))
  }

  // ---------------------------------------------------------------------
  // Integer.parseInt and its inverse

  predicate IsDigit(c: char)
  {
    '0' <= c <= '9'
  }

  predicate AllDigits(s: string)
  {
    forall i :: 0 <= i < |s| ==> IsDigit(s[i])
  }

  function DigitChar(d: nat): (c: char)
    requires d < 10
    ensures IsDigit(c)
  {
    ('0' as int + d) as char
  }

  /** The number a string of decimal digits denotes, most significant first. */
  function DigitsValue(s: string): nat
    requires AllDigits(s)
    decreases |s|
  {
    if |s| == 0 then 0
    else DigitsValue(s[..|s| - 1]) * 10 + (s[|s| - 1] as int - '0' as int)
  }

  /**
   * `Integer.parseInt(s)` in radix 10: an optional `+` or `-`, then one or more
   * decimal digits and nothing else; `None` stands for the
   * `NumberFormatException` thrown for any other string or a value outside
   * the `int` range.
   */
  function ParseInt(s: string): (r: Option<int32>)
    ensures r.Some? ==> |s| > 0 && forall i :: 0 <= i < |s| ==> !IsJavaWhitespace(s[i])
  {
    var signed := |s| > 0 && (s[0] == '-' || s[0] == '+');
    var digits := if signed then s[1..] else s;
    if |digits| == 0 || !AllDigits(digits) then None
    else
      var magnitude: int := DigitsValue(digits);
      var v := if s[0] == '-' then -magnitude else magnitude;
      if INT_MIN <= v <= INT_MAX then Some(v) else None
  }

  /** Decimal rendering of a natural number without leading zeros. */
  function FormatNat(n: nat): (s: string)
    decreases n
  {
    if n < 10 then [DigitChar(n)] else FormatNat(n / 10) + [DigitChar(n % 10)]
  }

  /** `Integer.toString(n)`. */
  function FormatInt(n: int32): string
  {
    if n < 0 then "-" + FormatNat(-(n as int)) else FormatNat(n)
  }

  /** A rendering is non-empty, all digits, and denotes the number rendered. */
  lemma {:induction false} FormatNatDigits(n: nat)
    ensures |FormatNat(n)| > 0 && AllDigits(FormatNat(n))
    ensures DigitsValue(FormatNat(n)) == n
    decreases n
  {
    var s := FormatNat(n);
    if n >= 10 {
      FormatNatDigits(n / 10);
      assert s[..|s| - 1] == FormatNat(n / 10);
    }
  }

  /** Every `int` written in decimal parses back to itself. */
  lemma ParseFormatRoundTrip(n: int32)
    ensures ParseInt(FormatInt(n)) == Some(n)
  {
    if n < 0 {
      var d := FormatNat(-(n as int));
      FormatNatDigits(-(n as int));
      var s := "-" + d;
      assert s[0] == '-' && s[1..] == d;
    } else {
      var d := FormatNat(n);
      FormatNatDigits(n);
      assert d[0] != '-' && d[0] != '+' by { assert IsDigit(d[0]); }
    }
  }

  /** A string that parses is never blank. */
  lemma ParsedIsNotBlank(s: string)
    requires ParseInt(s).Some?
    ensures !StringIsBlank(s)
  {
    assert !IsJavaWhitespace(s[0]);
  }

  // ---------------------------------------------------------------------
  // Splitting a host name on '.' and joining labels

  /** Every piece between dots, empty pieces included: `k` dots give `k + 1` pieces. */
  function Pieces(s: string): (r: seq<string>)
    ensures |r| >= 1
    ensures forall i :: 0 <= i < |r| ==> '.' !in r[i]
    decreases |s|
  {
    if |s| == 0 then [""]
    else
      var rest := Pieces(s[1..]);
      if s[0] == '.' then [""] + rest else [[s[0]] + rest[0]] + rest[1..]
  }

  /** Drops the empty strings at the end of a list. */
  function DropTrailingEmpty(parts: seq<string>): (r: seq<string>)
    ensures r <= parts
    ensures |r| > 0 ==> r[|r| - 1] != ""
    ensures forall i :: |r| <= i < |parts| ==> parts[i] == ""
    decreases |parts|
  {
    if |parts| == 0 then []
    else if parts[|parts| - 1] == "" then DropTrailingEmpty(parts[..|parts| - 1])
    else parts
  }

  /** `s.split("\\.")`: the pieces between dots with the trailing empty ones
      removed; a string with no dot at all gives itself alone. */
  function SplitOnDot(s: string): (r: seq<string>)
    ensures forall i :: 0 <= i < |r| ==> '.' !in r[i]
    ensures '.' !in s ==> r == [s]
    ensures '.' in s ==> r <= Pieces(s) && (|r| == 0 || r[|r| - 1] != "")
    ensures '.' in s ==> forall i :: |r| <= i < |Pieces(s)| ==> Pieces(s)[i] == ""
  {
    if '.' !in s then [s] else DropTrailingEmpty(Pieces(s))
  }

  /** `Joiner.on(".").join(parts)`. */
  function JoinDot(parts: seq<string>): (r: string)
    ensures |parts| == 0 ==> r == ""
    ensures |parts| > 0 ==> parts[0] <= r
    ensures |parts| > 1 ==> |r| > |parts[0]| && r[|parts[0]|] == '.'
    decreases |parts|
  {
    if |parts| == 0 then ""
    else if |parts| == 1 then parts[0]
    else parts[0] + "." + JoinDot(parts[1..])
  }

  lemma JoinDotCons(a: string, rest: seq<string>)
    requires |rest| >= 1
    ensures JoinDot([a] + rest) == a + "." + JoinDot(rest)
  {
    assert ([a] + rest)[1..] == rest;
  }

  /** Joining the pieces of a string with dots gives the string back. */
  lemma {:induction false} JoinPieces(s: string)
    ensures JoinDot(Pieces(s)) == s
    decreases |s|
  {
    if |s| > 0 {
      var rest := Pieces(s[1..]);
      JoinPieces(s[1..]);
      if s[0] == '.' {
        assert Pieces(s) == [""] + rest;
        assert ([""] + rest)[1..] == rest;
      } else if |rest| == 1 {
        assert Pieces(s) == [[s[0]] + rest[0]];
      } else {
        var p := Pieces(s);
        assert p == [[s[0]] + rest[0]] + rest[1..];
        assert p[1..] == rest[1..];
        assert JoinDot(rest) == rest[0] + "." + JoinDot(rest[1..]);
      }
    }
  }

  /** A string without dots is its own only piece. */
  lemma {:induction false} PiecesOfLabel(a: string)
    requires '.' !in a
    ensures Pieces(a) == [a]
    decreases |a|
  {
    if |a| > 0 {
      assert a[0] in a;
      PiecesOfLabel(a[1..]);
      assert [a[0]] + a[1..] == a;
    }
  }

  /** A dot after a dot-free label starts a new piece. */
  lemma {:induction false} PiecesAfterLabel(a: string, b: string)
    requires '.' !in a
    ensures Pieces(a + "." + b) == [a] + Pieces(b)
    decreases |a|
  {
    var s := a + "." + b;
    if |a| == 0 {
      assert s == "." + b;
      assert s[1..] == b;
    } else {
      assert s[1..] == a[1..] + "." + b;
      PiecesAfterLabel(a[1..], b);
      assert [s[0]] + a[1..] == a;
    }
  }

  /** Splitting dot-free labels joined with dots gives the labels back. */
  lemma {:induction false} PiecesOfJoin(parts: seq<string>)
    requires |parts| >= 1
    requires forall i :: 0 <= i < |parts| ==> '.' !in parts[i]
    ensures Pieces(JoinDot(parts)) == parts
    decreases |parts|
  {
    if |parts| == 1 {
      PiecesOfLabel(parts[0]);
    } else {
      PiecesOfJoin(parts[1..]);
      PiecesAfterLabel(parts[0], JoinDot(parts[1..]));
    }
  }

  /** When no piece is empty, `split` keeps every piece. */
  lemma SplitKeepsNonEmptyPieces(s: string)
    requires forall i :: 0 <= i < |Pieces(s)| ==> Pieces(s)[i] != ""
    ensures SplitOnDot(s) == Pieces(s)
  {
    var p := Pieces(s);
    if '.' !in s {
      PiecesOfLabel(s);
    } else {
      assert DropTrailingEmpty(p) == p;
    }
  }
}
