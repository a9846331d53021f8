/** Decimal text of unsigned integers, as Rust's `format!("{}", n)` renders a `usize`. */
module Decimals {

  predicate IsDigit(c: char) {
    '0' <= c <= '9'
  }

  /** Decimal digits without a leading zero (except "0" itself). */
  predicate IsCanonical(s: string) {
    && |s| >= 1
    && (forall i | 0 <= i < |s| :: IsDigit(s[i]))
    && (|s| > 1 ==> s[0] != '0')
  }

  function DigitChar(d: nat): (c: char)
    requires d < 10
    ensures IsDigit(c) && c as int - '0' as int == d
  {
    ['0', '1', '2', '3', '4', '5', '6', '7', '8', '9'][d]
  }

  /** The text `format!("{}", n)` produces. */
  function Decimal(n: nat): (s: string)
    ensures n < 10 <==> |s| == 1
  {
    if n < 10 then [DigitChar(n)] else Decimal(n / 10) + [DigitChar(n % 10)]
  }

  /** The rendered text is a canonical numeral. */
  lemma {:induction false} DecimalCanonical(n: nat)
    ensures IsCanonical(Decimal(n))
  {
    if n >= 10 {
      DecimalCanonical(n / 10);
    }
  }

  /** The value of one digit; other characters count as zero. */
  function DigitValue(c: char): nat {
    if IsDigit(c) then c as int - '0' as int else 0
  }

  /** The number a string of decimal digits denotes (the reading direction). */
  function DecimalValue(s: string): nat {
    if s == [] then 0 else 10 * DecimalValue(s[..|s| - 1]) + DigitValue(s[|s| - 1])
  }

  /** Reading back the rendered text gives the number again. */
  lemma {:induction false} DecimalRoundTrip(n: nat)
    ensures DecimalValue(Decimal(n)) == n
  {
    if n >= 10 {
      var s := Decimal(n);
      assert s[..|s| - 1] == Decimal(n / 10);
      DecimalRoundTrip(n / 10);
    }
  }

  /** s is the canonical decimal numeral of n. */
  predicate Denotes(s: string, n: nat) {
    IsCanonical(s) && DecimalValue(s) == n
  }

  lemma DecimalDenotes(n: nat)
    ensures Denotes(Decimal(n), n)
  {
    DecimalCanonical(n);
    DecimalRoundTrip(n);
  }

  /** Different numbers are rendered as different texts. */
  lemma DecimalInjective(m: nat, n: nat)
    requires Decimal(m) == Decimal(n)
    ensures m == n
  {
    DecimalRoundTrip(m);
    DecimalRoundTrip(n);
  }
}
