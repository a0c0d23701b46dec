/**
 * String helpers whose exact behaviour matters to the core: whitespace
 * trimming as Python's `str.strip()` and JavaScript's `String.prototype.trim()`
 * do it, ASCII lower-casing, `s.split(sep)[0]`, and decimal rendering of
 * integers (Python's `str(n)`, JavaScript's `n.toString()`).
 */
module Text {

  /** Whose idea of whitespace a trim uses. */
  datatype Runtime = Python | JavaScript

  /** Python's `str.isspace()` for a single character. */
  predicate IsPythonSpace(c: char) {
    ('\t' <= c <= '\r') || ('\U{1C}' <= c <= '\U{1F}') || c == ' ' ||
    c == '\U{85}' || c == '\U{A0}' || c == '\U{1680}' ||
    ('\U{2000}' <= c <= '\U{200A}') || c == '\U{2028}' || c == '\U{2029}' ||
    c == '\U{202F}' || c == '\U{205F}' || c == '\U{3000}'
  }

  /** The WhiteSpace and LineTerminator characters that `String.prototype.trim()` removes. */
  predicate IsJavaScriptSpace(c: char) {
    ('\t' <= c <= '\r') || c == ' ' || c == '\U{A0}' || c == '\U{1680}' ||
    ('\U{2000}' <= c <= '\U{200A}') || c == '\U{2028}' || c == '\U{2029}' ||
    c == '\U{202F}' || c == '\U{205F}' || c == '\U{3000}' || c == '\U{FEFF}'
  }

  /** The whitespace test of a runtime. */
  function SpaceTest(rt: Runtime): char -> bool {
    match rt
    case Python => IsPythonSpace
    case JavaScript => IsJavaScriptSpace
  }

  /*
   * The trimming functions take the whitespace test as a parameter: what they
   * promise holds for any such test.
   */

  /** `s` without its leading whitespace. */
  function TrimStart(isSpace: char -> bool, s: string): (r: string)
    ensures |r| <= |s| && r == s[|s| - |r|..]
    ensures forall i :: 0 <= i < |s| - |r| ==> isSpace(s[i])
    ensures r != [] ==> !isSpace(r[0])
  {
    if s != [] && isSpace(s[0]) then
      var r := TrimStart(isSpace, s[1..]);
      assert s[1..][|s| - 1 - |r|..] == s[|s| - |r|..];
      assert forall i :: 1 <= i < |s| - |r| ==> s[i] == s[1..][i - 1];
      r
    else s
  }

  /** `s` without its trailing whitespace. */
  function TrimEnd(isSpace: char -> bool, s: string): (r: string)
    ensures |r| <= |s| && r == s[..|r|]
    ensures forall i :: |r| <= i < |s| ==> isSpace(s[i])
    ensures r != [] ==> !isSpace(r[|r| - 1])
  {
    if s != [] && isSpace(s[|s| - 1]) then TrimEnd(isSpace, s[..|s| - 1]) else s
  }

  /** `r` is the slice `s[i..i+|r|]`, surrounded only by whitespace, and neither starts nor ends with any. */
  ghost predicate IsTrimAt(isSpace: char -> bool, s: string, i: int, r: string) {
    0 <= i <= |s| - |r| && r == s[i..i + |r|]
      && (forall k :: 0 <= k < i ==> isSpace(s[k]))
      && (forall k :: i + |r| <= k < |s| ==> isSpace(s[k]))
      && (r != [] ==> !isSpace(r[0]) && !isSpace(r[|r| - 1]))
  }

  /** Python's `s.strip()` or JavaScript's `s.trim()`. */
  function Trim(rt: Runtime, s: string): string {
    TrimEnd(SpaceTest(rt), TrimStart(SpaceTest(rt), s))
  }

  /**
   * The trimmed string is the slice of `s` that starts and ends with a
   * non-whitespace character and has only whitespace around it; it is empty
   * exactly when `s` is all whitespace.
   */
  lemma TrimSpec(rt: Runtime, s: string)
    ensures exists i :: IsTrimAt(SpaceTest(rt), s, i, Trim(rt, s))
    ensures Trim(rt, s) == [] <==> forall k :: 0 <= k < |s| ==> SpaceTest(rt)(s[k])
  {
    var sp := SpaceTest(rt);
    var t := TrimStart(sp, s);
    TrimOfBothEnds(sp, s, t, TrimEnd(sp, t));
    assert IsTrimAt(sp, s, |s| - |t|, Trim(rt, s));
  }

  lemma TrimOfBothEnds(isSpace: char -> bool, s: string, t: string, r: string)
    requires |t| <= |s| && t == s[|s| - |t|..]
    requires (forall k :: 0 <= k < |s| - |t| ==> isSpace(s[k])) && (t != [] ==> !isSpace(t[0]))
    requires |r| <= |t| && r == t[..|r|]
    requires (forall k :: |r| <= k < |t| ==> isSpace(t[k])) && (r != [] ==> !isSpace(r[|r| - 1]))
    ensures IsTrimAt(isSpace, s, |s| - |t|, r)
    ensures r == [] <==> forall k :: 0 <= k < |s| ==> isSpace(s[k])
  {
    var i := |s| - |t|;
    assert r == s[i..i + |r|] by {
      forall k | 0 <= k < |r| ensures r[k] == s[i + k] {
        assert r[k] == t[k];
      }
    }
    forall k | i + |r| <= k < |s|
      ensures isSpace(s[k])
    {
      assert s[k] == t[k - i];
    }
    if r != [] {
      assert r[0] == t[0] == s[i];
      assert !isSpace(s[i]);
    }
  }

  /** Lower-cases the ASCII letters `A`..`Z`; every other character is kept. */
  function LowerChar(c: char): char {
    if 'A' <= c <= 'Z' then (c as int + 32) as char else c
  }

  predicate IsAsciiUpper(c: char) {
    'A' <= c <= 'Z'
  }

  /** `s.lower()` restricted to ASCII letters. */
  function Lower(s: string): (r: string)
    ensures |r| == |s|
    ensures forall i :: 0 <= i < |r| ==> !IsAsciiUpper(r[i])
    ensures forall i :: 0 <= i < |r| ==> (r[i] == s[i] || r[i] == LowerChar(s[i]))
  {
    seq(|s|, i requires 0 <= i < |s| => LowerChar(s[i]))
  }

  /** Lower-casing twice is lower-casing once. */
  lemma LowerIdempotent(s: string)
    ensures Lower(Lower(s)) == Lower(s)
  {
    var l := Lower(s);
    assert forall i :: 0 <= i < |l| ==> LowerChar(l[i]) == l[i];
  }

  /** Python's `s.split(sep)[0]`: everything before the first `sep`, or all of `s`. */
  function BeforeFirst(s: string, sep: char): (r: string)
    ensures |r| <= |s| && r == s[..|r|]
    ensures sep !in r
    ensures |r| < |s| ==> s[|r|] == sep
  {
    if s == [] || s[0] == sep then [] else [s[0]] + BeforeFirst(s[1..], sep)
  }

  function DigitChar(d: nat): char
    requires d < 10
  {
    ('0' as int + d) as char
  }

  function DigitValue(c: char): nat
    requires '0' <= c <= '9'
  {
    c as int - '0' as int
  }

  predicate AllDigits(s: string) {
    forall i :: 0 <= i < |s| ==> '0' <= s[i] <= '9'
  }

  /** The decimal digits of `n` without leading zeros. */
  function NatToDecimal(n: nat): (r: string)
    ensures r != [] && AllDigits(r)
    ensures |r| > 1 ==> r[0] != '0'
  {
    if n < 10 then [DigitChar(n)] else NatToDecimal(n / 10) + [DigitChar(n % 10)]
  }

  /** `str(n)` in Python and `n.toString()` in JavaScript, for an integer `n`. */
  function IntToDecimal(n: int): (r: string)
    ensures r != []
    ensures n >= 0 ==> AllDigits(r)
    ensures n < 0 ==> r[0] == '-' && AllDigits(r[1..])
  {
    if n < 0 then "-" + NatToDecimal(-n) else NatToDecimal(n)
  }

  /** The number that a string of decimal digits denotes. */
  function ParseDecimal(s: string): nat
    requires AllDigits(s)
  {
    if s == [] then 0 else ParseDecimal(s[..|s| - 1]) * 10 + DigitValue(s[|s| - 1])
  }

  /** Reading back the rendering of `n` gives `n`. */
  lemma {:induction false} ParseNatToDecimal(n: nat)
    ensures ParseDecimal(NatToDecimal(n)) == n
  {
    if n >= 10 {
      var s := NatToDecimal(n);
      ParseNatToDecimal(n / 10);
      assert s[..|s| - 1] == NatToDecimal(n / 10);
    }
  }

  /** Distinct integers render as distinct strings. */
  lemma IntToDecimalInjective(m: int, n: int)
    requires IntToDecimal(m) == IntToDecimal(n)
    ensures m == n
  {
    assert IntToDecimal(m)[0] == '-' <==> m < 0;
    assert IntToDecimal(n)[0] == '-' <==> n < 0;
    if m < 0 && n < 0 {
      assert NatToDecimal(-m) == IntToDecimal(m)[1..];
      ParseNatToDecimal(-m);
      ParseNatToDecimal(-n);
    } else if m >= 0 && n >= 0 {
      ParseNatToDecimal(m);
      ParseNatToDecimal(n);
    }
  }

  /** `haystack` contains `needle` at or after position `from` (`needle in haystack`, `s.includes(needle)`). */
  predicate HasInfix(haystack: string, needle: string, from: nat)
    decreases |haystack| - from
  {
    from + |needle| <= |haystack| &&
      (haystack[from..from + |needle|] == needle || HasInfix(haystack, needle, from + 1))
  }
}
