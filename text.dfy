/**
  The string primitives the pages and the OCR service use, on `seq<char>`
  (Unicode scalar values): JavaScript's `String.prototype.includes` and
  `toLowerCase`, Python's `str.strip()`, and the decimal rendering of an
  integer inside a template literal.
 */
module Text {

  datatype Option<T> = None | Some(value: T)

  // ---------------------------------------------------------------------------
  // Substrings

  /** `t` occurs in `s` starting at index `i`. */
  predicate ContainsAt(s: string, t: string, i: nat) {
    i + |t| <= |s| && s[i..i + |t|] == t
  }

  /** `s.includes(t)`: `t` occurs somewhere in `s` (the empty string always does). */
  predicate Contains(s: string, t: string) {
    exists i: nat | i <= |s| :: ContainsAt(s, t, i)
  }

  lemma ContainsEmpty(s: string)
    ensures Contains(s, "")
  {
    assert ContainsAt(s, "", 0);
  }

  /** A string does not contain `t` when one of the characters of `t` is missing from it. */
  lemma MissingChar(s: string, t: string, k: nat)
    requires k < |t| && t[k] !in s
    ensures !Contains(s, t)
  {
  }

  // ---------------------------------------------------------------------------
  // Python's str.strip()

  /** The characters Python's `str.isspace()` accepts, which `str.strip()` removes. */
  predicate IsSpace(c: char) {
    var n := c as int;
    (0x09 <= n <= 0x0D) || (0x1C <= n <= 0x20) || n == 0x85 || n == 0xA0 || n == 0x1680
    || (0x2000 <= n <= 0x200A) || n == 0x2028 || n == 0x2029 || n == 0x202F || n == 0x205F
    || n == 0x3000
  }

  predicate AllSpace(s: string) {
    forall i | 0 <= i < |s| :: IsSpace(s[i])
  }

  /** `s.lstrip()`: the suffix left after dropping the leading white space. */
  function StripLeft(s: string): (r: string)
    ensures |r| <= |s| && r == s[|s| - |r|..]
    ensures AllSpace(s[..|s| - |r|])
    ensures r == [] || !IsSpace(r[0])
  {
    if s != [] && IsSpace(s[0]) then
      var r := StripLeft(s[1..]);
      StripLeftStep(s, r);
      r
    else s
  }

  /** Dropping one more leading space keeps the suffix and lengthens the space before it. */
  lemma StripLeftStep(s: string, r: string)
    requires s != [] && IsSpace(s[0]) && |r| < |s|
    requires r == s[1..][|s| - 1 - |r|..] && AllSpace(s[1..][..|s| - 1 - |r|])
    ensures r == s[|s| - |r|..] && AllSpace(s[..|s| - |r|])
  {
    var m := |s| - |r|;
    assert s[1..][m - 1..] == s[m..];
    forall k | 0 < k < m ensures IsSpace(s[k]) {
      assert s[k] == s[1..][..m - 1][k - 1];
    }
  }

  /** `s.rstrip()`: the prefix left after dropping the trailing white space. */
  function StripRight(s: string): (r: string)
    ensures |r| <= |s| && r == s[..|r|]
    ensures AllSpace(s[|r|..])
    ensures r == [] || !IsSpace(r[|r| - 1])
  {
    if s != [] && IsSpace(s[|s| - 1]) then
      var r := StripRight(s[..|s| - 1]);
      StripRightStep(s, r);
      r
    else s
  }

  /** Dropping one more trailing space keeps the prefix and lengthens the space after it. */
  lemma StripRightStep(s: string, r: string)
    requires s != [] && IsSpace(s[|s| - 1]) && |r| < |s|
    requires r == s[..|s| - 1][..|r|] && AllSpace(s[..|s| - 1][|r|..])
    ensures r == s[..|r|] && AllSpace(s[|r|..])
  {
    var m := |r|;
    forall k | m <= k < |s| - 1 ensures IsSpace(s[k]) {
      assert s[k] == s[..|s| - 1][m..][k - m];
    }
  }

  /** `s.strip()`. */
  function Strip(s: string): string {
    StripRight(StripLeft(s))
  }

  /**
    `s.strip()` is a contiguous piece of `s` with only white space around it,
    and it neither starts nor ends with white space.
   */
  lemma StripIsTrimmedSlice(s: string)
    ensures exists i, j | 0 <= i <= j <= |s| :: Strip(s) == s[i..j] && AllSpace(s[..i]) && AllSpace(s[j..])
    ensures Strip(s) == [] || (!IsSpace(Strip(s)[0]) && !IsSpace(Strip(s)[|Strip(s)| - 1]))
  {
    var l := StripLeft(s);
    var r := StripRight(l);
    var i := |s| - |l|;
    SliceOfSuffix(s, l, i, |r|);
    SpaceAfterSlice(s, l, i, |r|);
    StripEnds(s);
  }

  lemma SliceOfSuffix(s: string, l: string, i: nat, m: nat)
    requires i <= |s| && l == s[i..] && m <= |l|
    ensures l[..m] == s[i..i + m]
  {
  }

  lemma SpaceAfterSlice(s: string, l: string, i: nat, m: nat)
    requires i <= |s| && l == s[i..] && m <= |l| && AllSpace(l[m..])
    ensures AllSpace(s[i + m..])
  {
    assert l[m..] == s[i + m..];
  }

  /** `s.strip()` starts and ends with a character that is not white space, when it is not empty. */
  lemma StripEnds(s: string)
    ensures Strip(s) == [] || (!IsSpace(Strip(s)[0]) && !IsSpace(Strip(s)[|Strip(s)| - 1]))
  {
    var l := StripLeft(s);
    var r := StripRight(l);
    if r != [] {
      assert r[0] == l[0];
    }
  }

  /** `s.strip()` is empty exactly when `s` is all white space (this is Python's `if text:` after strip). */
  lemma StripEmptyIffBlank(s: string)
    ensures Strip(s) == [] <==> AllSpace(s)
  {
    var l := StripLeft(s);
    var r := StripRight(l);
    assert s == s[..|s| - |l|] + l;
    assert l != [] ==> l[0] == s[|s| - |l|];
    assert r == [] ==> l[|r|..] == l;
  }

  /** Stripping twice is stripping once. */
  lemma StripIdempotent(s: string)
    ensures Strip(Strip(s)) == Strip(s)
  {
    StripIsTrimmedSlice(s);
    var t := Strip(s);
    if t != [] {
      assert StripLeft(t) == t;
      assert StripRight(t) == t;
    }
  }

  // ---------------------------------------------------------------------------
  // JavaScript's toLowerCase, for the Latin and Cyrillic letters

  /** The lower-case partner of an upper-case ASCII or Cyrillic letter; other characters are unchanged. */
  function LowerChar(c: char): (d: char)
  {
    var n := c as int;
    if 0x41 <= n <= 0x5A then (n + 0x20) as char        // A-Z
    else if 0x410 <= n <= 0x42F then (n + 0x20) as char  // А-Я
    else if 0x400 <= n <= 0x40F then (n + 0x50) as char  // Ѐ-Џ, including Ё
    else c
  }

  /** `s.toLowerCase()`, character by character. */
  function ToLower(s: string): (r: string)
    ensures |r| == |s|
    ensures forall i | 0 <= i < |s| :: r[i] == LowerChar(s[i])
  {
    seq(|s|, i requires 0 <= i < |s| => LowerChar(s[i]))
  }

  lemma LowerCharIdempotent(c: char)
    ensures LowerChar(LowerChar(c)) == LowerChar(c)
  {
  }

  /** Lower-casing an already lower-cased string changes nothing. */
  lemma ToLowerIdempotent(s: string)
    ensures ToLower(ToLower(s)) == ToLower(s)
  {
    forall i | 0 <= i < |s| ensures ToLower(ToLower(s))[i] == ToLower(s)[i] {
      LowerCharIdempotent(s[i]);
    }
  }

  /** A case-insensitive match survives lower-casing: a string contains what it contained. */
  lemma ToLowerPreservesContains(s: string, t: string)
    requires Contains(s, t)
    ensures Contains(ToLower(s), ToLower(t))
  {
    var i: nat :| i <= |s| && ContainsAt(s, t, i);
    assert ToLower(s)[i..i + |t|] == ToLower(t);
    assert ContainsAt(ToLower(s), ToLower(t), i);
  }

  // ---------------------------------------------------------------------------
  // Decimal numbers, as `${n}` renders an integer

  predicate IsDigit(c: char) {
    '0' <= c <= '9'
  }

  function DigitChar(d: nat): (c: char)
    requires d < 10
    ensures IsDigit(c) && (c as int) - ('0' as int) == d
  {
    ((d + '0' as int) as char)
  }

  /** The decimal digits of `n`, without leading zeros. */
  function NatToString(n: nat): (s: string)
    ensures |s| >= 1 && forall i | 0 <= i < |s| :: IsDigit(s[i])
    ensures (s[0] == '0') == (n == 0)
  {
    if n < 10 then [DigitChar(n)] else NatToString(n / 10) + [DigitChar(n % 10)]
  }

  /** The value of a non-empty string of decimal digits. */
  function DigitsValue(s: string): nat
    requires forall i | 0 <= i < |s| :: IsDigit(s[i])
  {
    if s == [] then 0
    else
      var c := s[|s| - 1];
      assert IsDigit(c);
      DigitsValue(s[..|s| - 1]) * 10 + ((c as int) - ('0' as int))
  }

  /** `${n}` for an integer: a minus sign for negative numbers, then the digits. */
  function IntToString(n: int): string {
    if n < 0 then "-" + NatToString(-n) else NatToString(n)
  }

  /** Reading a rendered natural number back gives the number. */
  lemma {:induction false} NatToStringRoundTrip(n: nat)
    ensures DigitsValue(NatToString(n)) == n
  {
    if n >= 10 {
      NatToStringRoundTrip(n / 10);
      var s := NatToString(n);
      assert s[..|s| - 1] == NatToString(n / 10);
    }
  }

  /** Reading a rendered integer back, sign included, gives the integer. */
  lemma IntToStringRoundTrip(n: int)
    ensures var s := IntToString(n);
      (n < 0 ==> s[0] == '-' && DigitsValue(s[1..]) == -n)
      && (n >= 0 ==> DigitsValue(s) == n)
  {
    if n < 0 {
      NatToStringRoundTrip(-n);
      assert IntToString(n)[1..] == NatToString(-n);
    } else {
      NatToStringRoundTrip(n);
    }
  }
}
