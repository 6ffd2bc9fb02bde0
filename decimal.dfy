/**
 * Decimal numerals: how `write!("{}", n)` prints an unsigned integer, and how
 * the terminal decoder accumulates the digits it reads (acc := acc * 10 + d).
 */
module Decimal {
  predicate IsDigit(c: char) {
    '0' <= c <= '9'
  }

  predicate AllDigits(s: string) {
    forall i :: 0 <= i < |s| ==> IsDigit(s[i])
  }

  function DigitChar(d: nat): (c: char)
    requires d < 10
    ensures IsDigit(c) && (c as int) - ('0' as int) == d
  {
    ('0' as int + d) as char
  }

  function DigitValue(c: char): (d: nat)
    requires IsDigit(c)
    ensures d < 10 && DigitChar(d) == c
  {
    (c as int) - ('0' as int)
  }

  /** The shortest decimal numeral of n, most significant digit first. */
  function Format(n: nat): string
    decreases n
  {
    if n < 10 then [DigitChar(n)] else Format(n / 10) + [DigitChar(n % 10)]
  }

  /** A numeral is a non-empty string of digits, and one of more than one digit does not start with a zero. */
  lemma {:induction false} FormatDigits(n: nat)
    ensures |Format(n)| >= 1 && AllDigits(Format(n))
    ensures |Format(n)| > 1 ==> Format(n)[0] != '0'
    decreases n
  {
    if n >= 10 {
      FormatDigits(n / 10);
      var s := Format(n);
      assert s == Format(n / 10) + [DigitChar(n % 10)];
      assert forall i :: 0 <= i < |Format(n / 10)| ==> s[i] == Format(n / 10)[i];
    }
  }

  /** Reads the digits of s after acc, one at a time from the left: acc := acc * 10 + d. */
  function Accumulate(acc: nat, s: string): nat
    requires AllDigits(s)
    decreases |s|
  {
    if |s| == 0 then acc else Accumulate(acc * 10 + DigitValue(s[0]), s[1..])
  }

  lemma {:induction false} AccumulateSnoc(acc: nat, s: string, c: char)
    requires AllDigits(s) && IsDigit(c)
    ensures AllDigits(s + [c])
    ensures Accumulate(acc, s + [c]) == Accumulate(acc, s) * 10 + DigitValue(c)
    decreases |s|
  {
    if |s| == 0 {
      assert s + [c] == [c];
    } else {
      assert (s + [c])[1..] == s[1..] + [c];
      AccumulateSnoc(acc * 10 + DigitValue(s[0]), s[1..], c);
    }
  }

  /** Reading back a printed number gives the number: the decoder inverts Format. */
  lemma {:induction false} AccumulateFormat(n: nat)
    ensures AllDigits(Format(n)) && Accumulate(0, Format(n)) == n
    decreases n
  {
    FormatDigits(n);
    if n < 10 {
      assert Format(n)[1..] == [];
    } else {
      AccumulateFormat(n / 10);
      FormatDigits(n / 10);
      AccumulateSnoc(0, Format(n / 10), DigitChar(n % 10));
    }
  }

  /** Formatting is injective: distinct numbers print differently. */
  lemma FormatInjective(m: nat, n: nat)
    requires Format(m) == Format(n)
    ensures m == n
  {
    AccumulateFormat(m);
    AccumulateFormat(n);
  }
}
