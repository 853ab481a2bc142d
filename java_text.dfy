/**
 The few pieces of the Java and Android string library that the broker result
 adapter relies on: TextUtils.isEmpty, String.equalsIgnoreCase and
 Long.parseLong, together with Long.toString as the rendering that the
 token cache uses for the timestamps it stores.
 */
module JavaText {
  import opened Wrappers

  const MIN_LONG: int := -0x8000_0000_0000_0000
  const MAX_LONG: int := 0x7FFF_FFFF_FFFF_FFFF

  /** The values of Java's 64-bit `long`. */
  predicate IsLong(n: int) {
    MIN_LONG <= n <= MAX_LONG
  }

  /** TextUtils.isEmpty: the string is null or has length zero. */
  predicate IsEmpty(s: Option<string>) {
    s.None? || |s.value| == 0
  }

  // ---------------------------------------------------------------------
  // Case-insensitive comparison
  // ---------------------------------------------------------------------

  /** Character.toLowerCase, restricted to the ASCII letters. */
  function ToLowerCase(c: char): char {
    if 'A' <= c <= 'Z' then (c as int + 32) as char else c
  }

  /** Character.toUpperCase, restricted to the ASCII letters. */
  function ToUpperCase(c: char): char {
    if 'a' <= c <= 'z' then (c as int - 32) as char else c
  }

  /**
   The per-character test of String.regionMatches with ignoreCase set: equal
   characters, equal upper cases, or equal lower cases of the upper cases.
   */
  predicate CharEqualsIgnoreCase(a: char, b: char) {
    a == b || ToUpperCase(a) == ToUpperCase(b) || ToLowerCase(ToUpperCase(a)) == ToLowerCase(ToUpperCase(b))
  }

  /** String.equalsIgnoreCase on a non-null argument: equal lengths, then character by character. */
  predicate EqualsIgnoreCase(a: string, b: string) {
    |a| == |b| && (|a| == 0 || (CharEqualsIgnoreCase(a[0], b[0]) && EqualsIgnoreCase(a[1..], b[1..])))
  }

  /** `constant.equalsIgnoreCase(s)`, which is false when `s` is null. */
  predicate MatchesIgnoreCase(constant: string, s: Option<string>) {
    s.Some? && EqualsIgnoreCase(constant, s.value)
  }

  /** The string with every ASCII upper-case letter replaced by its lower case. */
  function Lowered(s: string): string {
    seq(|s|, i requires 0 <= i < |s| => ToLowerCase(s[i]))
  }

  lemma CharEqualsIgnoreCaseIffLower(a: char, b: char)
    ensures CharEqualsIgnoreCase(a, b) <==> ToLowerCase(a) == ToLowerCase(b)
  {
  }

  /** Java's character-by-character comparison agrees with comparing the lower-cased strings. */
  lemma {:induction false} EqualsIgnoreCaseIffLowered(a: string, b: string)
    ensures EqualsIgnoreCase(a, b) <==> Lowered(a) == Lowered(b)
  {
    if |a| == |b| && |a| > 0 {
      CharEqualsIgnoreCaseIffLower(a[0], b[0]);
      EqualsIgnoreCaseIffLowered(a[1..], b[1..]);
      assert Lowered(a) == [ToLowerCase(a[0])] + Lowered(a[1..]);
      assert Lowered(b) == [ToLowerCase(b[0])] + Lowered(b[1..]);
      if Lowered(a) == Lowered(b) {
        assert Lowered(a)[0] == Lowered(b)[0];
        assert Lowered(a)[1..] == Lowered(b)[1..];
      }
    }
  }

  lemma EqualsIgnoreCaseReflexive(a: string)
    ensures EqualsIgnoreCase(a, a)
  {
    EqualsIgnoreCaseIffLowered(a, a);
  }

  lemma EqualsIgnoreCaseSymmetric(a: string, b: string)
    ensures EqualsIgnoreCase(a, b) ==> EqualsIgnoreCase(b, a)
  {
    EqualsIgnoreCaseIffLowered(a, b);
    EqualsIgnoreCaseIffLowered(b, a);
  }

  lemma EqualsIgnoreCaseTransitive(a: string, b: string, c: string)
    ensures EqualsIgnoreCase(a, b) && EqualsIgnoreCase(b, c) ==> EqualsIgnoreCase(a, c)
  {
    EqualsIgnoreCaseIffLowered(a, b);
    EqualsIgnoreCaseIffLowered(b, c);
    EqualsIgnoreCaseIffLowered(a, c);
  }

  /**
   Two constants that differ ignoring case are never both matched by the same
   string: the tests of a first-match decision list on distinct codes are disjoint.
   */
  lemma MatchesAtMostOne(x: string, y: string, s: Option<string>)
    requires !EqualsIgnoreCase(x, y)
    ensures !(MatchesIgnoreCase(x, s) && MatchesIgnoreCase(y, s))
    ensures s.None? ==> !MatchesIgnoreCase(x, s) && !MatchesIgnoreCase(y, s)
  {
    if s.Some? {
      EqualsIgnoreCaseSymmetric(y, s.value);
      EqualsIgnoreCaseTransitive(x, s.value, y);
    }
  }

  /** Replacing a string by one equal to it ignoring case does not change what it matches. */
  lemma MatchesRespectsCase(x: string, s: string, t: string)
    requires EqualsIgnoreCase(s, t)
    ensures MatchesIgnoreCase(x, Some(s)) <==> MatchesIgnoreCase(x, Some(t))
  {
    EqualsIgnoreCaseSymmetric(s, t);
    EqualsIgnoreCaseTransitive(x, s, t);
    EqualsIgnoreCaseTransitive(x, t, s);
  }

  // ---------------------------------------------------------------------
  // Decimal longs
  // ---------------------------------------------------------------------

  predicate IsDigit(c: char) {
    '0' <= c <= '9'
  }

  predicate AllDigits(s: string) {
    forall i :: 0 <= i < |s| ==> IsDigit(s[i])
  }

  function DigitValue(c: char): nat
    requires IsDigit(c)
  {
    c as int - '0' as int
  }

  /** The value of a string of decimal digits, most significant first. */
  function DigitsValue(s: string): nat
    requires AllDigits(s)
  {
    if |s| == 0 then 0 else DigitsValue(s[..|s| - 1]) * 10 + DigitValue(s[|s| - 1])
  }

  /**
   Long.parseLong(s) in radix 10: null, the empty string, a lone sign, a
   character that is not a digit, and a value outside the range of `long` all
   raise NumberFormatException, which is None here.
   */
  function ParseLong(s: Option<string>): (r: Option<int>)
    ensures r.Some? ==> IsLong(r.value)
    // Only an optional sign followed by at least one ASCII digit is accepted.
    ensures r.Some? ==>
              && s.Some? && |s.value| > 0
              && (AllDigits(s.value) || ((s.value[0] == '-' || s.value[0] == '+') && |s.value| > 1 && AllDigits(s.value[1..])))
    // Digits alone are read as their value, whenever it fits.
    ensures s.Some? && |s.value| > 0 && AllDigits(s.value) ==>
              (r.Some? <==> IsLong(DigitsValue(s.value))) && (r.Some? ==> r.value == DigitsValue(s.value))
    ensures s.Some? && |s.value| > 1 && s.value[0] == '+' && AllDigits(s.value[1..]) ==>
              (r.Some? <==> IsLong(DigitsValue(s.value[1..]))) && (r.Some? ==> r.value == DigitsValue(s.value[1..]))
    // A minus sign negates the digits that follow it.
    ensures s.Some? && |s.value| > 1 && s.value[0] == '-' && AllDigits(s.value[1..]) ==>
              (r.Some? <==> IsLong(-(DigitsValue(s.value[1..]) as int)))
              && (r.Some? ==> r.value == -(DigitsValue(s.value[1..]) as int))
  {
    if s.None? || |s.value| == 0 then None
    else
      var t := s.value;
      var digits := if t[0] == '-' || t[0] == '+' then t[1..] else t;
      if |digits| == 0 || !AllDigits(digits) then None
      else
        var n: int := if t[0] == '-' then -(DigitsValue(digits) as int) else DigitsValue(digits);
        if IsLong(n) then Some(n) else None
  }

  function DigitChar(d: nat): char
    requires d < 10
  {
    ('0' as int + d) as char
  }

  /** The decimal rendering of a natural number, without leading zeros. */
  function NatToDecimal(n: nat): string {
    if n < 10 then [DigitChar(n)] else NatToDecimal(n / 10) + [DigitChar(n % 10)]
  }

  /** Long.toString(n). */
  function LongToString(n: int): string {
    if n < 0 then "-" + NatToDecimal(-n) else NatToDecimal(n)
  }

  lemma {:induction false} NatToDecimalValue(n: nat)
    ensures |NatToDecimal(n)| > 0 && NatToDecimal(n)[0] != '-' && NatToDecimal(n)[0] != '+'
    ensures AllDigits(NatToDecimal(n)) && DigitsValue(NatToDecimal(n)) == n
  {
    if n >= 10 {
      NatToDecimalValue(n / 10);
      var s := NatToDecimal(n);
      assert s[..|s| - 1] == NatToDecimal(n / 10);
    }
  }

  /** Every `long` survives being written with Long.toString and read back with Long.parseLong. */
  lemma ParseLongOfToString(n: int)
    requires IsLong(n)
    ensures ParseLong(Some(LongToString(n))) == Some(n)
  {
    if n < 0 {
      var digits := NatToDecimal(-n);
      NatToDecimalValue(-n);
      var t := "-" + digits;
      assert t[0] == '-' && t[1..] == digits;
      assert LongToString(n) == t;
    } else {
      NatToDecimalValue(n);
    }
  }
}
