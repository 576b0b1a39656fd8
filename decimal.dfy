/** The `%d` conversion of `printf`: an integer written in decimal, with a
    leading minus sign for negative values and no leading zeros, together
    with its inverse, a parser for exactly the strings `%d` produces. */
module Decimal {

  predicate IsDigit(c: char)
  {
    '0' <= c <= '9'
  }

  function DigitChar(d: nat): (c: char)
    requires d < 10
    ensures IsDigit(c) && DigitValue(c) == d
  {
    ('0' as int + d) as char
  }

  function DigitValue(c: char): (d: nat)
    requires IsDigit(c)
    ensures d < 10
  {
    c as int - '0' as int
  }

  predicate IsDigits(s: string)
  {
    forall i :: 0 <= i < |s| ==> IsDigit(s[i])
  }

  /** A non-empty digit string without leading zeros ("0" itself allowed). */
  predicate IsCanonicalDigits(s: string)
  {
    |s| >= 1 && IsDigits(s) && (s[0] == '0' ==> |s| == 1)
  }

  /** The strings `%d` can print: canonical digits, optionally preceded by a
      minus sign, but never "-0". */
  predicate IsDecimal(s: string)
  {
    IsCanonicalDigits(s) || (|s| >= 2 && s[0] == '-' && IsCanonicalDigits(s[1..]) && s[1..] != "0")
  }

  function Pow10(k: nat): (p: nat)
    ensures p >= 1
  {
    if k == 0 then 1 else 10 * Pow10(k - 1)
  }

  /** The decimal digits of a natural number, most significant first. */
  function Digits(n: nat): (s: string)
    ensures IsCanonicalDigits(s)
    ensures s[0] == '0' <==> n == 0
  {
    if n < 10 then [DigitChar(n)] else Digits(n / 10) + [DigitChar(n % 10)]
  }

  /** The value of a digit string, read most significant digit first. */
  function ParseDigits(s: string): nat
    requires IsDigits(s)
  {
    if s == [] then 0 else 10 * ParseDigits(s[..|s| - 1]) + DigitValue(s[|s| - 1])
  }

  /** What `%d` prints for `n`. */
  function FormatInt(n: int): (s: string)
    ensures IsDecimal(s)
    ensures '-' in s <==> n < 0
  {
    if n < 0 then "-" + Digits(-n) else Digits(n)
  }

  function ParseInt(s: string): int
    requires IsDecimal(s)
  {
    if s[0] == '-' then 0 - ParseDigits(s[1..]) else ParseDigits(s)
  }

  lemma {:induction false} DigitsRoundTrip(n: nat)
    ensures ParseDigits(Digits(n)) == n
  {
    if n >= 10 {
      DigitsRoundTrip(n / 10);
      var s := Digits(n);
      assert s[..|s| - 1] == Digits(n / 10);
    }
  }

  lemma {:induction false} ParseDigitsPositive(s: string)
    requires IsDigits(s) && |s| >= 1 && s[0] != '0'
    ensures ParseDigits(s) >= 1
  {
    if |s| > 1 {
      ParseDigitsPositive(s[..|s| - 1]);
    }
  }

  lemma {:induction false} ParseDigitsRoundTrip(s: string)
    requires IsCanonicalDigits(s)
    ensures Digits(ParseDigits(s)) == s
  {
    if |s| == 1 {
      assert s == [DigitChar(DigitValue(s[0]))];
    } else {
      var init, last := s[..|s| - 1], s[|s| - 1];
      assert init[0] == s[0];
      ParseDigitsPositive(init);
      ParseDigitsRoundTrip(init);
      var n := ParseDigits(s);
      assert n == 10 * ParseDigits(init) + DigitValue(last);
      assert n / 10 == ParseDigits(init) && n % 10 == DigitValue(last);
      assert s == init + [last];
    }
  }

  /** Parsing what `%d` prints gives back the integer. */
  lemma FormatIntRoundTrip(n: int)
    ensures ParseInt(FormatInt(n)) == n
  {
    if n < 0 {
      assert FormatInt(n)[1..] == Digits(-n);
      DigitsRoundTrip(-n);
    } else {
      DigitsRoundTrip(n);
    }
  }

  /** Every string `%d` can print is printed for exactly one integer. */
  lemma ParseIntRoundTrip(s: string)
    requires IsDecimal(s)
    ensures FormatInt(ParseInt(s)) == s
  {
    if s[0] == '-' {
      ParseDigitsRoundTrip(s[1..]);
      ParseDigitsPositive(s[1..]);
      assert s == "-" + s[1..];
    } else {
      ParseDigitsRoundTrip(s);
    }
  }

  lemma {:induction false} DigitsLength(n: nat, k: nat)
    requires 1 <= k && n < Pow10(k)
    ensures |Digits(n)| <= k
  {
    if n >= 10 {
      DigitsLength(n / 10, k - 1);
    }
  }

  /** A value of at most `k` digits prints in at most `k` characters, plus
      one for the sign when it is negative. */
  lemma FormatIntLength(n: int, k: nat)
    requires 1 <= k && 0 - Pow10(k) < n < Pow10(k)
    ensures |FormatInt(n)| <= (if n < 0 then k + 1 else k)
  {
    DigitsLength(if n < 0 then -n else n, k);
  }

  /** `%d` of an `int32_t` takes at most 11 characters ("-2147483648"). */
  lemma FormatIntInt32(n: int)
    requires -0x8000_0000 <= n < 0x8000_0000
    ensures |FormatInt(n)| <= 11
  {
    assert Pow10(10) == 10_000_000_000;
    DigitsLength(if n < 0 then -n else n, 10);
  }
}
