/** Character and string primitives the app relies on from the Kotlin
    standard library, written out explicitly: whitespace, `trim`, `isBlank`,
    `uppercase` (ASCII letters only), digit tests, counting, filtering,
    insertion-ordered de-duplication and decimal rendering of integers. */
module Text {

  /** Kotlin's `Char.isWhitespace()`: the Java whitespace characters plus the
      Unicode space, line and paragraph separators. */
  predicate IsWhitespace(c: char) {
    || ('\t' <= c <= '\r')                 // U+0009 .. U+000D
    || ('\U{1C}' <= c <= ' ')              // U+001C .. U+0020
    || c == '\U{A0}' || c == '\U{1680}'
    || ('\U{2000}' <= c <= '\U{200A}')
    || c == '\U{2028}' || c == '\U{2029}' || c == '\U{202F}'
    || c == '\U{205F}' || c == '\U{3000}'
  }

  /** Kotlin's `isBlank()`: empty or only whitespace. */
  predicate IsBlank(s: string) {
    forall i | 0 <= i < |s| :: IsWhitespace(s[i])
  }

  /** Drops the leading whitespace. */
  function TrimStart(s: string): (r: string)
    ensures |r| <= |s| && r == s[|s| - |r|..]
    ensures forall k | 0 <= k < |s| - |r| :: IsWhitespace(s[k])
    ensures r == [] || !IsWhitespace(r[0])
  {
    if s != [] && IsWhitespace(s[0]) then TrimStart(s[1..]) else s
  }

  /** Drops the trailing whitespace. */
  function TrimEnd(s: string): (r: string)
    ensures |r| <= |s| && r == s[..|r|]
    ensures forall k | |r| <= k < |s| :: IsWhitespace(s[k])
    ensures r == [] || !IsWhitespace(r[|r| - 1])
  {
    if s != [] && IsWhitespace(s[|s| - 1]) then TrimEnd(s[..|s| - 1]) else s
  }

  /** How many whitespace characters `trim()` drops at the start. */
  function LeadingBlanks(s: string): nat {
    |s| - |TrimStart(s)|
  }

  /** Kotlin's `trim()`: the infix left after dropping the whitespace on both
      sides, which neither starts nor ends with whitespace. */
  function Trim(s: string): (r: string)
    ensures LeadingBlanks(s) + |r| <= |s|
    ensures r == s[LeadingBlanks(s)..LeadingBlanks(s) + |r|]
    ensures forall k | 0 <= k < LeadingBlanks(s) :: IsWhitespace(s[k])
    ensures forall k | LeadingBlanks(s) + |r| <= k < |s| :: IsWhitespace(s[k])
    ensures r == [] || (!IsWhitespace(r[0]) && !IsWhitespace(r[|r| - 1]))
  {
    var t := TrimStart(s);
    var r := TrimEnd(t);
    TrimSplice(s, t, r);
    r
  }

  /** Dropping the trailing whitespace of the suffix `t` of `s` leaves an
      infix of `s`, followed in `s` by whitespace only. */
  lemma TrimSplice(s: string, t: string, r: string)
    requires |t| <= |s| && t == s[|s| - |t|..]
    requires t == [] || !IsWhitespace(t[0])
    requires |r| <= |t| && r == t[..|r|]
    requires forall k | |r| <= k < |t| :: IsWhitespace(t[k])
    ensures |s| - |t| + |r| <= |s| && r == s[|s| - |t|..|s| - |t| + |r|]
    ensures forall k | |s| - |t| + |r| <= k < |s| :: IsWhitespace(s[k])
    ensures r == [] || !IsWhitespace(r[0])
  {
    var i := |s| - |t|;
    assert forall k | i <= k < |s| :: s[k] == t[k - i];
    if r != [] {
      assert r[0] == t[0];
    }
  }

  /** A string is blank exactly when trimming leaves nothing. */
  lemma TrimEmptyIffBlank(s: string)
    ensures Trim(s) == [] <==> IsBlank(s)
  {
    var r := Trim(s);
    if r != [] {
      assert s[LeadingBlanks(s)] == r[0];
    }
  }

  /** A trimmed string is blank only when it is empty, so trimming first
      does not change whether a string is blank. */
  lemma BlankTrim(s: string)
    ensures IsBlank(Trim(s)) <==> IsBlank(s)
  {
    TrimEmptyIffBlank(s);
    var r := Trim(s);
    if r != [] {
      assert !IsWhitespace(r[0]);
    }
  }

  /** Trimming leaves a string without whitespace as it is. */
  lemma TrimNoWhitespace(s: string)
    requires forall k | 0 <= k < |s| :: !IsWhitespace(s[k])
    ensures Trim(s) == s
  {
    var i := LeadingBlanks(s);
    var j := i + |Trim(s)|;
    assert IsBlank(s[..i]);
    assert IsBlank(s[j..]);
    BlankWithoutWhitespace(s[..i]);
    BlankWithoutWhitespace(s[j..]);
    assert s[0..|s|] == s;
  }


  lemma BlankWithoutWhitespace(t: string)
    requires forall k | 0 <= k < |t| :: !IsWhitespace(t[k])
    ensures IsBlank(t) <==> t == []
  {
    if t != [] {
      assert !IsWhitespace(t[0]);
    }
  }

  /** Upper case of one character: only the ASCII letters a..z change. */
  function UpperChar(c: char): (u: char)
    ensures 'a' <= c <= 'z' ==> 'A' <= u <= 'Z' && u as int == c as int - 32
    ensures !('a' <= c <= 'z') ==> u == c
  {
    if 'a' <= c <= 'z' then (c as int - 32) as char else c
  }

  /** Kotlin's `uppercase()` restricted to ASCII letters, applied per character. */
  function Upper(s: string): (r: string)
    ensures |r| == |s| && forall i | 0 <= i < |s| :: r[i] == UpperChar(s[i])
  {
    seq(|s|, i requires 0 <= i < |s| => UpperChar(s[i]))
  }

  lemma UpperIdempotent(s: string)
    ensures Upper(Upper(s)) == Upper(s)
  {
  }

  /** Upper-casing never turns whitespace into non-whitespace or back. */
  lemma UpperKeepsWhitespace(c: char)
    ensures IsWhitespace(UpperChar(c)) == IsWhitespace(c)
  {
  }

  /** Trimming and upper-casing commute, so `uppercase().trim()` and
      `trim().uppercase()` agree. */
  lemma {:induction false} TrimUpperCommute(s: string)
    ensures Trim(Upper(s)) == Upper(Trim(s))
  {
    TrimStartUpper(s);
    TrimEndUpper(TrimStart(s));
  }

  lemma {:induction false} TrimStartUpper(s: string)
    ensures TrimStart(Upper(s)) == Upper(TrimStart(s))
    decreases |s|
  {
    if s != [] {
      UpperKeepsWhitespace(s[0]);
      if IsWhitespace(s[0]) {
        assert Upper(s)[1..] == Upper(s[1..]);
        TrimStartUpper(s[1..]);
      }
    }
  }

  lemma {:induction false} TrimEndUpper(s: string)
    ensures TrimEnd(Upper(s)) == Upper(TrimEnd(s))
    decreases |s|
  {
    if s != [] {
      UpperKeepsWhitespace(s[|s| - 1]);
      if IsWhitespace(s[|s| - 1]) {
        assert Upper(s)[..|s| - 1] == Upper(s[..|s| - 1]);
        TrimEndUpper(s[..|s| - 1]);
      }
    }
  }

  /** Regex `\d` and `isDigit()` on the ASCII digits. */
  predicate IsDigit(c: char) {
    '0' <= c <= '9'
  }

  predicate AllDigits(s: string) {
    forall i | 0 <= i < |s| :: IsDigit(s[i])
  }

  /** `n` is one of the ten digits starting at the code point `zero`. */
  predicate DigitRun(n: int, zero: int) {
    zero <= n < zero + 10
  }

  /** The first code point of each run of ten decimal digits (Unicode
      category Nd) in the Basic Multilingual Plane, in increasing order. */
  const DigitZeros: seq<int> := [
    0x30, 0x660, 0x6F0, 0x7C0, 0x966, 0x9E6, 0xA66, 0xAE6, 0xB66, 0xBE6,
    0xC66, 0xCE6, 0xD66, 0xDE6, 0xE50, 0xED0, 0xF20, 0x1040, 0x1090, 0x17E0,
    0x1810, 0x1946, 0x19D0, 0x1A80, 0x1A90, 0x1B50, 0x1BB0, 0x1C40, 0x1C50, 0xA620,
    0xA8D0, 0xA900, 0xA9D0, 0xA9F0, 0xAA50, 0xABF0, 0xFF10]

  /** `n` lies in one of the runs from the `k`-th on. */
  predicate InDigitRuns(n: int, k: nat)
    decreases |DigitZeros| - k
  {
    k < |DigitZeros| && (DigitRun(n, DigitZeros[k]) || InDigitRuns(n, k + 1))
  }

  /** Kotlin's `Char.isDigit()`: a decimal digit of any script. A `Char` is
      one UTF-16 unit, so only the runs of the Basic Multilingual Plane can be
      a single `Char`; a digit beyond it is a surrogate pair, and neither half
      is a digit. */
  predicate IsKotlinDigit(c: char) {
    InDigitRuns(c as int, 0)
  }

  /** A run that starts at `zero` holds no whitespace character: every
      whitespace character is at most U+0020, U+00A0, U+1680 or between
      U+2000 and U+3000. */
  predicate RunClear(zero: int) {
    || (0x20 < zero && zero + 10 <= 0xA0)
    || (0xA0 < zero && zero + 10 <= 0x1680)
    || (0x1680 < zero && zero + 10 <= 0x2000)
    || 0x3000 < zero
  }

  lemma {:induction false} RunsAvoidWhitespace(c: char, k: nat)
    requires forall j | 0 <= j < |DigitZeros| :: RunClear(DigitZeros[j])
    requires InDigitRuns(c as int, k)
    ensures !IsWhitespace(c)
    decreases |DigitZeros| - k
  {
    if !DigitRun(c as int, DigitZeros[k]) {
      RunsAvoidWhitespace(c, k + 1);
    }
  }

  /** No digit of any script is whitespace. */
  lemma KotlinDigitNotWhitespace(c: char)
    requires IsKotlinDigit(c)
    ensures !IsWhitespace(c)
  {
    assert forall k | 0 <= k < |DigitZeros| :: RunClear(DigitZeros[k]);
    RunsAvoidWhitespace(c, 0);
  }

  /** Kotlin's `s.all { it.isDigit() }`. */
  predicate AllKotlinDigits(s: string)
    decreases |s|
  {
    s == [] || (IsKotlinDigit(s[0]) && AllKotlinDigits(s[1..]))
  }

  /** `AllKotlinDigits` holds exactly when every character is a digit. */
  lemma {:induction false} AllKotlinDigitsEach(s: string)
    ensures AllKotlinDigits(s) <==> forall i | 0 <= i < |s| :: IsKotlinDigit(s[i])
    decreases |s|
  {
    if s != [] {
      AllKotlinDigitsEach(s[1..]);
      assert forall i | 1 <= i < |s| :: s[1..][i - 1] == s[i];
    }
  }

  /** The ASCII digits of `\d` are among Kotlin's digits; the converse fails,
      for instance for the Arabic-Indic digit one. */
  lemma AsciiDigitsAreKotlinDigits(s: string)
    requires AllDigits(s)
    ensures AllKotlinDigits(s)
    ensures IsKotlinDigit('\U{661}') && !IsDigit('\U{661}')
  {
    forall i | 0 <= i < |s| ensures IsKotlinDigit(s[i]) {
      assert IsDigit(s[i]);
      assert DigitRun(s[i] as int, DigitZeros[0]);
    }
    AllKotlinDigitsEach(s);
    assert DigitRun(0x661, DigitZeros[1]);
  }

  /** A non-empty run of digits is not blank. */
  lemma KotlinDigitsNotBlank(s: string)
    requires AllKotlinDigits(s) && s != []
    ensures !IsBlank(s)
  {
    KotlinDigitNotWhitespace(s[0]);
  }

  /** No digit of any script is whitespace, so trimming leaves a string of
      Kotlin digits alone. */
  lemma TrimKotlinDigits(s: string)
    requires AllKotlinDigits(s)
    ensures Trim(s) == s
  {
    AllKotlinDigitsEach(s);
    forall k | 0 <= k < |s| ensures !IsWhitespace(s[k]) {
      KotlinDigitNotWhitespace(s[k]);
    }
    TrimNoWhitespace(s);
  }

  /** Kotlin's `s.count { it == c }`. */
  function Count(s: string, c: char): (n: nat)
    ensures n <= |s|
    ensures n > 0 <==> c in s
  {
    if s == [] then 0 else (if s[0] == c then 1 else 0) + Count(s[1..], c)
  }

  /** Kotlin's `s.filter { !it.isWhitespace() }`. */
  function NonWhitespace(s: string): (r: string)
    ensures forall c :: c in r <==> c in s && !IsWhitespace(c)
  {
    if s == [] then []
    else (if IsWhitespace(s[0]) then [] else [s[0]]) + NonWhitespace(s[1..])
  }

  predicate NoDuplicates(s: string) {
    forall i, j | 0 <= i < j < |s| :: s[i] != s[j]
  }

  /** The characters of `s` in order of first occurrence, as iterating a
      Kotlin `LinkedHashSet` built from `s` yields them. */
  function Distinct(s: string): (r: string)
    ensures NoDuplicates(r)
    ensures forall c :: c in r <==> c in s
  {
    if s == [] then []
    else
      var d := Distinct(s[..|s| - 1]);
      assert s == s[..|s| - 1] + [s[|s| - 1]];
      if s[|s| - 1] in d then d else d + [s[|s| - 1]]
  }

  /** De-duplicating an already duplicate-free string changes nothing, so
      extending a revealed-letter string by fresh letters keeps their order. */
  lemma {:induction false} DistinctOfNoDuplicates(s: string)
    requires NoDuplicates(s)
    ensures Distinct(s) == s
  {
    if s != [] {
      var p := s[..|s| - 1];
      assert NoDuplicates(p);
      DistinctOfNoDuplicates(p);
      assert s[|s| - 1] !in p;
      assert s == p + [s[|s| - 1]];
    }
  }

  /** The digit character for 0..9. */
  function DigitChar(d: nat): (c: char)
    requires d < 10
    ensures IsDigit(c) && c as int - '0' as int == d
  {
    ('0' as int + d) as char
  }

  /** Decimal rendering of a natural number, without leading zeros. */
  function NatToString(n: nat): (r: string)
    ensures |r| > 0 && AllDigits(r)
    ensures n > 0 ==> r[0] != '0'
  {
    if n < 10 then [DigitChar(n)] else NatToString(n / 10) + [DigitChar(n % 10)]
  }

  /** Kotlin's `Int.toString()` / `Long.toString()` / string templates. */
  function IntToString(n: int): (r: string)
    ensures |r| > 0
    ensures n >= 0 <==> AllDigits(r)
    ensures n < 0 ==> r[0] == '-'
  {
    if n >= 0 then NatToString(n)
    else
      var r := "-" + NatToString(-n);
      assert !IsDigit(r[0]);
      r
  }

  /** Reads a string of decimal digits back as a number. */
  function ParseNat(s: string): nat
    requires AllDigits(s)
  {
    if s == [] then 0
    else 10 * ParseNat(s[..|s| - 1]) + (s[|s| - 1] as int - '0' as int)
  }

  lemma {:induction false} ParseNatToString(n: nat)
    ensures ParseNat(NatToString(n)) == n
  {
    if n >= 10 {
      var r := NatToString(n);
      assert r[..|r| - 1] == NatToString(n / 10);
      ParseNatToString(n / 10);
    }
  }

  /** Rendering is injective on integers. */
  lemma IntToStringInjective(a: int, b: int)
    requires IntToString(a) == IntToString(b)
    ensures a == b
  {
    if a >= 0 && b >= 0 {
      ParseNatToString(a);
      ParseNatToString(b);
    } else if a < 0 && b < 0 {
      assert NatToString(-a) == IntToString(a)[1..];
      assert NatToString(-b) == IntToString(b)[1..];
      ParseNatToString(-a);
      ParseNatToString(-b);
    }
  }

  function Pow10(k: nat): (p: nat)
    ensures p >= 1
  {
    if k == 0 then 1 else 10 * Pow10(k - 1)
  }

  /** A number in [10^k, 10^(k+1)) has exactly k+1 decimal digits. */
  lemma {:induction false} NatToStringLength(n: nat, k: nat)
    requires Pow10(k) <= n < Pow10(k + 1)
    ensures |NatToString(n)| == k + 1
  {
    if k > 0 {
      NatToStringLength(n / 10, k - 1);
    }
  }
}
