/** The .NET string operations the plugin relies on. */
module Text {
  import opened Wrappers

  /** `string.IsNullOrEmpty`. */
  predicate IsNullOrEmpty(s: Option<string>) {
    s.None? || s.value == ""
  }

  /** Upper-casing of one character as ordinal-ignore-case comparison does it (ASCII letters only). */
  function ToUpperInvariant(c: char): (u: char)
    ensures 'a' <= c <= 'z' ==> 'A' <= u <= 'Z' && u as int == c as int - 32
    ensures !('a' <= c <= 'z') ==> u == c
  {
    if 'a' <= c <= 'z' then (c as int - 32) as char else c
  }

  /** `a.Equals(b, StringComparison.OrdinalIgnoreCase)`. */
  predicate EqualsOrdinalIgnoreCase(a: string, b: string) {
    |a| == |b| && forall i :: 0 <= i < |a| ==> ToUpperInvariant(a[i]) == ToUpperInvariant(b[i])
  }

  /** Ordinal-ignore-case equality is an equivalence relation that contains ordinary equality. */
  lemma EqualsOrdinalIgnoreCaseIsEquivalence(a: string, b: string, c: string)
    ensures EqualsOrdinalIgnoreCase(a, a)
    ensures EqualsOrdinalIgnoreCase(a, b) ==> EqualsOrdinalIgnoreCase(b, a)
    ensures EqualsOrdinalIgnoreCase(a, b) && EqualsOrdinalIgnoreCase(b, c) ==> EqualsOrdinalIgnoreCase(a, c)
  {
  }

  /**
   * Ordinal-ignore-case equality only forgives letter case: strings of different lengths differ, and
   * so do strings that differ at a position holding a digit.
   */
  lemma IgnoreCaseSeesDigits(a: string, b: string, i: nat)
    ensures |a| != |b| ==> !EqualsOrdinalIgnoreCase(a, b)
    ensures i < |a| && i < |b| && (IsDigit(a[i]) || IsDigit(b[i])) && a[i] != b[i] ==> !EqualsOrdinalIgnoreCase(a, b)
  {
  }

  /** A role written "main" or "MAIN" matches "Main". */
  lemma MainMatchesAnyCase()
    ensures EqualsOrdinalIgnoreCase("main", "Main") && EqualsOrdinalIgnoreCase("MAIN", "Main")
  {
  }

  const MaxInt32: nat := 2147483647

  predicate IsDigit(c: char) {
    '0' <= c <= '9'
  }

  predicate IsDigits(s: string) {
    forall i :: 0 <= i < |s| ==> IsDigit(s[i])
  }

  /** The number a string of decimal digits denotes. */
  function DigitsValue(s: string): nat
    requires IsDigits(s)
  {
    if |s| == 0 then 0 else DigitsValue(s[..|s| - 1]) * 10 + (s[|s| - 1] as int - '0' as int)
  }

  /**
   * `int.Parse(s, CultureInfo.InvariantCulture)` on strings of ASCII digits: the number when it fits in
   * a 32-bit int, OverflowException when it does not, and FormatException for any other string.
   */
  function ParseInt32(s: string): (r: Outcome<nat>)
    ensures r.Returned? <==> |s| > 0 && IsDigits(s) && DigitsValue(s) <= MaxInt32
    ensures r.Returned? ==> r.value == DigitsValue(s)
    ensures r == Threw(OverflowException) <==> |s| > 0 && IsDigits(s) && DigitsValue(s) > MaxInt32
    ensures r.Threw? ==> r.exception == FormatException || r.exception == OverflowException
  {
    if |s| == 0 || !IsDigits(s) then Threw(FormatException)
    else if DigitsValue(s) <= MaxInt32 then Returned(DigitsValue(s))
    else Threw(OverflowException)
  }

  /** `n.ToString(CultureInfo.InvariantCulture)` for a non-negative n. */
  function NatToString(n: nat): (s: string)
    ensures |s| > 0 && IsDigits(s)
  {
    if n < 10 then [('0' as int + n) as char] else NatToString(n / 10) + [('0' as int + n % 10) as char]
  }

  /** Reading back a rendered number gives the number. */
  lemma {:induction false} DigitsValueOfNatToString(n: nat)
    ensures DigitsValue(NatToString(n)) == n
  {
    var s := NatToString(n);
    if n < 10 {
      assert s[..0] == [];
    } else {
      assert s[..|s| - 1] == NatToString(n / 10);
      DigitsValueOfNatToString(n / 10);
    }
  }

  /** Parsing the rendering of a 32-bit ID gives the ID back: the plugin's stored IDs round-trip. */
  lemma ParseInt32OfNatToString(n: nat)
    requires n <= MaxInt32
    ensures ParseInt32(NatToString(n)) == Returned(n)
  {
    DigitsValueOfNatToString(n);
  }

  /** A rendered number above Int32.MaxValue does not parse back: int.Parse overflows on it. */
  lemma ParseInt32OverflowOfNatToString(n: nat)
    requires n > MaxInt32
    ensures ParseInt32(NatToString(n)) == Threw(OverflowException)
  {
    DigitsValueOfNatToString(n);
  }

  /** A rendered number is never the empty string, so storing it never deletes a provider ID. */
  lemma NatToStringNotEmpty(n: nat)
    ensures !IsNullOrEmpty(Some(NatToString(n)))
  {
  }

  /** "0" parses to 0 and a string with a non-digit is a format error. */
  lemma ParseInt32Examples()
    ensures ParseInt32("0") == Returned(0)
    ensures ParseInt32("12a") == Threw(FormatException)
  {
    assert "0"[..0] == [];
    assert !IsDigit("12a"[2]);
  }
}
