/// Character classes and the small greedy scanners that the regular expressions
/// of seascanner.py are built from, plus Python's `str.strip()` and `str(int)`.
module Text {

  /** The pound sign that prefixes every price. */
  const Pound: char := '\U{A3}'

  /** The bullet that separates the ship name from the next field. */
  const Bullet: char := '\U{2022}'

  /** Python's `str.isspace()`: the class `\s` of `re` on text and what `strip()` removes. */
  predicate IsSpace(c: char) {
    || c == ' '
    || '\t' <= c <= '\r'
    || '\U{1C}' <= c <= '\U{1F}'
    || c == '\U{85}' || c == '\U{A0}' || c == '\U{1680}'
    || '\U{2000}' <= c <= '\U{200A}'
    || c == '\U{2028}' || c == '\U{2029}' || c == '\U{202F}' || c == '\U{205F}' || c == '\U{3000}'
  }

  /** The class `\d`, restricted to ASCII digits. */
  predicate IsDigit(c: char) {
    '0' <= c <= '9'
  }

  /** The class `\w` (used by `\b`), restricted to ASCII. */
  predicate IsWordChar(c: char) {
    'a' <= c <= 'z' || 'A' <= c <= 'Z' || IsDigit(c) || c == '_'
  }

  /** ASCII lower-casing: what `re.IGNORECASE` folds letters to. */
  function Lower(c: char): char {
    if 'A' <= c <= 'Z' then (c as int + 32) as char else c
  }

  /** The literal `w`, written in lower case, occurs at position `i` of `t`, ignoring case. */
  predicate WordAt(t: string, i: nat, w: string) {
    i + |w| <= |t| && forall k :: 0 <= k < |w| ==> Lower(t[i + k]) == w[k]
  }

  /** A literal of two or more letters cannot occur where its first two letters do not. */
  lemma NotWordAt(t: string, i: nat, w: string)
    requires |w| >= 2
    requires i + 1 < |t| ==> Lower(t[i]) != w[0] || Lower(t[i + 1]) != w[1]
    ensures !WordAt(t, i, w)
  {
    if i + 1 < |t| {
      assert Lower(t[i + 0]) != w[0] || Lower(t[i + 1]) != w[1];
    }
  }

  predicate AllSpace(s: string) {
    forall k :: 0 <= k < |s| ==> IsSpace(s[k])
  }

  predicate AllDigits(s: string) {
    forall k :: 0 <= k < |s| ==> IsDigit(s[k])
  }

  /** Greedy `\s*` from `i`: the end of the longest run of whitespace starting there. */
  function SkipSpaces(t: string, i: nat): (j: nat)
    requires i <= |t|
    ensures i <= j <= |t|
    ensures forall k :: i <= k < j ==> IsSpace(t[k])
    ensures j == |t| || !IsSpace(t[j])
    decreases |t| - i
  {
    if i < |t| && IsSpace(t[i]) then SkipSpaces(t, i + 1) else i
  }

  /** Greedy `\d*` from `i`: the end of the longest run of digits starting there. */
  function DigitRunEnd(t: string, i: nat): (j: nat)
    requires i <= |t|
    ensures i <= j <= |t|
    ensures forall k :: i <= k < j ==> IsDigit(t[k])
    ensures j == |t| || !IsDigit(t[j])
    decreases |t| - i
  {
    if i < |t| && IsDigit(t[i]) then DigitRunEnd(t, i + 1) else i
  }

  /** Scanning backwards from `j`: the start of the run of whitespace that ends at `j`. */
  function TrailingStart(t: string, j: nat): (i: nat)
    requires j <= |t|
    ensures i <= j
    ensures forall k :: i <= k < j ==> IsSpace(t[k])
    ensures i == 0 || !IsSpace(t[i - 1])
  {
    if j > 0 && IsSpace(t[j - 1]) then TrailingStart(t, j - 1) else j
  }

  /** Python's `str.strip()`. */
  function Strip(t: string): (r: string)
    ensures |r| > 0 ==> !IsSpace(r[0]) && !IsSpace(r[|r| - 1])
    ensures r == [] <==> AllSpace(t)
    ensures forall c :: c in r ==> c in t
    ensures |t| > 0 && !IsSpace(t[0]) && !IsSpace(t[|t| - 1]) ==> r == t
  {
    var a := SkipSpaces(t, 0);
    var b := TrailingStart(t, |t|);
    if a < b then t[a..b] else []
  }

  /** `strip()` removes whitespace at the two ends and nothing else: the result
      is a slice of the input with only whitespace on either side of it. */
  lemma StripRemovesOnlyEdges(t: string)
    ensures exists a, b :: 0 <= a <= b <= |t| && Strip(t) == t[a..b] && AllSpace(t[..a]) && AllSpace(t[b..])
  {
    var a := SkipSpaces(t, 0);
    var b := TrailingStart(t, |t|);
    if a < b {
      assert Strip(t) == t[a..b] && AllSpace(t[..a]) && AllSpace(t[b..]);
    } else {
      assert a == |t|;
      assert Strip(t) == t[|t|..|t|] && AllSpace(t[..|t|]) && AllSpace(t[|t|..]);
    }
  }

  function DigitValue(c: char): nat
    requires IsDigit(c)
  {
    c as int - '0' as int
  }

  function Pow10(n: nat): (p: nat)
    ensures p >= 1
  {
    if n == 0 then 1 else 10 * Pow10(n - 1)
  }

  lemma {:induction false} Pow10Monotone(m: nat, n: nat)
    requires m <= n
    ensures Pow10(m) <= Pow10(n)
    decreases n
  {
    if m < n {
      Pow10Monotone(m, n - 1);
    }
  }

  /** Python's `int()` on a run of decimal digits. */
  function DigitsValue(s: string): (v: nat)
    requires AllDigits(s)
    ensures v < Pow10(|s|)
  {
    if s == [] then 0 else 10 * DigitsValue(s[..|s| - 1]) + DigitValue(s[|s| - 1])
  }

  function DigitChar(d: nat): (c: char)
    requires d < 10
    ensures IsDigit(c) && DigitValue(c) == d
  {
    ('0' as int + d) as char
  }

  /** Python's `str()` on a non-negative integer. */
  function Decimal(n: nat): (s: string)
    ensures |s| > 0 && AllDigits(s)
    ensures s[0] == '0' <==> n == 0
    ensures |s| == 1 || s[0] != '0'
  {
    if n < 10 then [DigitChar(n)] else Decimal(n / 10) + [DigitChar(n % 10)]
  }

  /** Reading back what `str()` wrote gives the number again. */
  lemma {:induction false} DecimalRoundTrip(n: nat)
    ensures DigitsValue(Decimal(n)) == n
  {
    if n >= 10 {
      var s := Decimal(n);
      assert s[..|s| - 1] == Decimal(n / 10);
      DecimalRoundTrip(n / 10);
    }
  }
}
