/** The pieces of PHP string semantics the filter relies on: `empty()` and
    truthiness of strings, `strpos(...) !== false` containment, and the
    decimal spelling of platform integers (used by PHP's array-key cast). */
module PhpStrings {
  import opened Results

  /** Bounds of a 64-bit PHP integer (`PHP_INT_MAX`, `PHP_INT_MIN`). */
  const PhpIntMax: int := 0x7FFF_FFFF_FFFF_FFFF
  const PhpIntMin: int := -0x8000_0000_0000_0000

  /** PHP `empty()` of a string: exactly `''` and `'0'` are empty. */
  predicate IsEmpty(s: string) {
    s == "" || s == "0"
  }

  /** PHP truthiness of a value that is `null` or a string: `null`, `''`
      and `'0'` are falsy, every other string is truthy. */
  predicate IsTruthy(v: Option<string>) {
    v.Some? && !IsEmpty(v.value)
  }

  // ---------------------------------------------------------------------
  // Substring search
  // ---------------------------------------------------------------------

  /** `needle` occurs in `haystack` starting at offset `j`. */
  predicate MatchAt(haystack: string, needle: string, j: int) {
    0 <= j && j + |needle| <= |haystack| && haystack[j..j + |needle|] == needle
  }

  /** Reference definition of containment. */
  ghost predicate IsSubstring(needle: string, haystack: string) {
    exists j :: MatchAt(haystack, needle, j)
  }

  /** First offset at or after `i` where `needle` occurs, if any. */
  function FindFrom(haystack: string, needle: string, i: nat): (r: Option<nat>)
    ensures r.Some? ==> i <= r.value && MatchAt(haystack, needle, r.value)
    ensures r.Some? ==> forall j :: i <= j < r.value ==> !MatchAt(haystack, needle, j)
    ensures r.None? ==> forall j :: i <= j ==> !MatchAt(haystack, needle, j)
    decreases |haystack| - i
  {
    if i + |needle| > |haystack| then None
    else if haystack[i..i + |needle|] == needle then Some(i)
    else FindFrom(haystack, needle, i + 1)
  }

  /** PHP `strpos($haystack, $needle)`: the first offset of `needle`, or
      `false` (here `None`). An empty needle is found at offset 0, as in
      PHP 8. */
  function StrPos(haystack: string, needle: string): (r: Option<nat>)
    ensures r.Some? ==> MatchAt(haystack, needle, r.value)
    ensures r.Some? ==> forall j :: 0 <= j < r.value ==> !MatchAt(haystack, needle, j)
    ensures r.None? <==> !IsSubstring(needle, haystack)
    ensures |needle| == 0 ==> r == Some(0)
  {
    FindFrom(haystack, needle, 0)
  }

  /** `strpos($haystack, $needle) !== false`. */
  predicate Contains(haystack: string, needle: string) {
    StrPos(haystack, needle).Some?
  }

  // ---------------------------------------------------------------------
  // Decimal integer strings
  // ---------------------------------------------------------------------

  predicate IsDigit(c: char) {
    '0' <= c <= '9'
  }

  function DigitValue(c: char): nat
    requires IsDigit(c)
  {
    c as int - '0' as int
  }

  function DigitChar(d: nat): char
    requires d < 10
  {
    ('0' as int + d) as char
  }

  predicate AllDigits(s: string) {
    forall i :: 0 <= i < |s| ==> IsDigit(s[i])
  }

  /** A non-empty run of digits without a leading zero (but `"0"` itself). */
  predicate IsCanonicalDigits(s: string) {
    |s| > 0 && AllDigits(s) && (s[0] == '0' ==> |s| == 1)
  }

  /** The value of a run of decimal digits. */
  function ParseDigits(s: string): nat
    requires AllDigits(s)
    decreases |s|
  {
    if |s| == 0 then 0 else 10 * ParseDigits(s[..|s| - 1]) + DigitValue(s[|s| - 1])
  }

  /** The canonical decimal digits of a natural number. */
  function Digits(n: nat): (s: string)
    ensures IsCanonicalDigits(s)
    ensures ParseDigits(s) == n
    ensures s == "0" <==> n == 0
  {
    if n < 10 then
      [DigitChar(n)]
    else
      var front := Digits(n / 10);
      var s := front + [DigitChar(n % 10)];
      assert s[..|s| - 1] == front;
      s
  }

  /** PHP's `(string)` of an integer. */
  function DecimalString(i: int): (s: string)
    ensures i >= 0 ==> IsCanonicalDigits(s) && ParseDigits(s) == i
    ensures i < 0 ==> |s| >= 2 && s[0] == '-' && s[1..] != "0"
                      && IsCanonicalDigits(s[1..]) && ParseDigits(s[1..]) == -i
  {
    if i < 0 then
      var s := "-" + Digits(-i);
      assert s[1..] == Digits(-i);
      s
    else
      Digits(i)
  }

  lemma {:induction false} ParseDigitsPositive(s: string)
    requires AllDigits(s) && |s| > 0 && s[0] != '0'
    ensures ParseDigits(s) >= 1
  {
    if |s| > 1 {
      ParseDigitsPositive(s[..|s| - 1]);
    }
  }

  /** Reading canonical digits and printing the value gives the digits back. */
  lemma {:induction false} DigitsOfParse(s: string)
    requires IsCanonicalDigits(s)
    ensures Digits(ParseDigits(s)) == s
  {
    var last := |s| - 1;
    if |s| == 1 {
      assert s[..last] == "";
      assert DigitChar(DigitValue(s[0])) == s[0];
    } else {
      var front := s[..last];
      assert front[0] == s[0];
      DigitsOfParse(front);
      ParseDigitsPositive(front);
      var n := ParseDigits(s);
      assert n == 10 * ParseDigits(front) + DigitValue(s[last]);
      assert n / 10 == ParseDigits(front) && n % 10 == DigitValue(s[last]);
      assert DigitChar(DigitValue(s[last])) == s[last];
      assert s == front + [s[last]];
    }
  }
}
