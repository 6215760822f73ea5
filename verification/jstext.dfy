/**
 * The JavaScript string operations the console relies on: `String.prototype.trim`,
 * the truthiness of a string (`s || fallback`), and the decimal rendering of a
 * whole number inside a template literal.
 */
module JsText {
  import opened Wrappers

  /** The characters `trim` strips: ECMAScript WhiteSpace and LineTerminator. */
  const SpaceChars: set<char> := {
    ' ', '\t', '\n', '\r', '\U{000B}', '\U{000C}', '\U{00A0}', '\U{FEFF}', '\U{1680}',
    '\U{2000}', '\U{2001}', '\U{2002}', '\U{2003}', '\U{2004}', '\U{2005}', '\U{2006}',
    '\U{2007}', '\U{2008}', '\U{2009}', '\U{200A}', '\U{2028}', '\U{2029}', '\U{202F}',
    '\U{205F}', '\U{3000}'
  }

  predicate IsSpace(c: char) {
    c in SpaceChars
  }

  /** Every character of `s` is white space (the empty string included). */
  predicate IsBlank(s: string) {
    forall i | 0 <= i < |s| :: IsSpace(s[i])
  }

  /** The characters of `s` at positions `lo` up to (not including) `hi` are all white space. */
  predicate BlankBetween(s: string, lo: nat, hi: nat)
    requires lo <= hi <= |s|
  {
    forall i | lo <= i < hi :: IsSpace(s[i])
  }

  /**
   * Scanning forward from `i` over white space: the first position at or after
   * `i` that is not white space, or `|s|`.
   */
  function BlankPrefixEnd(s: string, i: nat): (k: nat)
    requires i <= |s| && BlankBetween(s, 0, i)
    ensures i <= k <= |s| && BlankBetween(s, 0, k)
    ensures k < |s| ==> !IsSpace(s[k])
    decreases |s| - i
  {
    if i < |s| && IsSpace(s[i]) then BlankPrefixEnd(s, i + 1) else i
  }

  /**
   * Scanning backward from `j` over white space: the position just after the
   * last character before `j` that is not white space, or 0.
   */
  function BlankSuffixStart(s: string, j: nat): (m: nat)
    requires j <= |s| && BlankBetween(s, j, |s|)
    ensures m <= j && BlankBetween(s, m, |s|)
    ensures m > 0 ==> !IsSpace(s[m - 1])
    decreases j
  {
    if j > 0 && IsSpace(s[j - 1]) then BlankSuffixStart(s, j - 1) else j
  }

  /**
   * `s.trim()`: `s` is a blank prefix, then the result, then a blank suffix.
   * The result is empty exactly when `s` is blank, and otherwise neither
   * starts nor ends with white space.
   */
  function Trim(s: string): (r: string)
    ensures r == [] <==> IsBlank(s)
    ensures r != [] ==> !IsSpace(r[0]) && !IsSpace(r[|r| - 1])
    ensures var k := BlankPrefixEnd(s, 0);
      && k + |r| <= |s| && r == s[k..k + |r|]
      && BlankBetween(s, 0, k) && BlankBetween(s, k + |r|, |s|)
  {
    var k := BlankPrefixEnd(s, 0);
    var m := BlankSuffixStart(s, |s|);
    if m <= k then
      assert BlankBetween(s, k, |s|);
      []
    else
      assert s[k..m][0] == s[k] && s[k..m][m - k - 1] == s[m - 1];
      s[k..m]
  }

  /** Trimming a trimmed string changes nothing. */
  lemma TrimIdempotent(s: string)
    ensures Trim(Trim(s)) == Trim(s)
  {
    var r := Trim(s);
    if r != [] {
      assert BlankPrefixEnd(r, 0) == 0;
      assert BlankSuffixStart(r, |r|) == |r|;
      assert r[0..|r|] == r;
    }
  }

  /** JavaScript's `a || b` for a possibly absent string `a`: `b` when `a` is undefined or empty. */
  function OrElse(a: Option<string>, b: string): (r: string)
    ensures a.Some? && a.value != "" ==> r == a.value
    ensures a.None? || a.value == "" ==> r == b
  {
    if a.Some? && a.value != "" then a.value else b
  }

  predicate IsDigit(c: char) {
    '0' <= c <= '9'
  }

  /** A non-empty run of decimal digits. */
  predicate IsNumeral(s: string) {
    |s| > 0 && forall i | 0 <= i < |s| :: IsDigit(s[i])
  }

  /** A numeral without leading zeros: `0` itself, or digits starting with 1 to 9. */
  predicate IsCanonical(s: string) {
    IsNumeral(s) && (s[0] == '0' ==> |s| == 1)
  }

  function DigitChar(d: nat): (c: char)
    requires d < 10
    ensures IsDigit(c)
  {
    ('0' as int + d) as char
  }

  function DigitValue(c: char): (d: nat)
    requires IsDigit(c)
    ensures d < 10 && DigitChar(d) == c
  {
    c as int - '0' as int
  }

  /** The text a template literal gives a whole number: its decimal digits, no leading zeros. */
  function Decimal(n: nat): (r: string)
    ensures IsNumeral(r) && IsCanonical(r)
    ensures r[0] == '0' ==> n == 0
    ensures n == 0 ==> r == "0"
    ensures n < 10 <==> |r| == 1
    decreases n
  {
    if n < 10 then [DigitChar(n)] else Decimal(n / 10) + [DigitChar(n % 10)]
  }

  /** The number a numeral denotes, most significant digit first. */
  function NumeralValue(s: string): nat
    requires forall i | 0 <= i < |s| :: IsDigit(s[i])
  {
    if |s| == 0 then 0 else NumeralValue(s[..|s| - 1]) * 10 + DigitValue(s[|s| - 1])
  }

  /** Reading back the decimal rendering of `n` gives `n`. */
  lemma {:induction false} DecimalRoundTrip(n: nat)
    ensures NumeralValue(Decimal(n)) == n
    decreases n
  {
    var r := Decimal(n);
    if n < 10 {
      assert r[..0] == [];
    } else {
      var p := Decimal(n / 10);
      assert r[..|r| - 1] == p;
      DecimalRoundTrip(n / 10);
    }
  }

  /** A numeral whose first digit is not `0` denotes a positive number. */
  lemma {:induction false} NumeralPositive(s: string)
    requires IsNumeral(s) && s[0] != '0'
    ensures NumeralValue(s) > 0
    decreases |s|
  {
    if |s| > 1 {
      var p := s[..|s| - 1];
      assert p[0] == s[0];
      NumeralPositive(p);
    }
  }

  /** A canonical numeral is the decimal rendering of the number it denotes. */
  lemma {:induction false} CanonicalRoundTrip(s: string)
    requires IsCanonical(s)
    ensures Decimal(NumeralValue(s)) == s
    decreases |s|
  {
    var last := s[|s| - 1];
    var p := s[..|s| - 1];
    if |s| == 1 {
      assert p == [];
      assert s == [last];
    } else {
      assert p[0] == s[0] && s[0] != '0';
      NumeralPositive(p);
      CanonicalRoundTrip(p);
      var n := NumeralValue(s);
      assert n / 10 == NumeralValue(p) && n % 10 == DigitValue(last);
      assert s == p + [last];
    }
  }
}
