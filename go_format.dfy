/** Decimal formatting as `fmt` does it for a non-negative integer (`%d`, and
    `%06d` with its zero padding), with decimal parsing as the inverse that
    gives the formatted text its meaning. */
module GoFormat {

  predicate IsDigit(c: char) {
    '0' <= c <= '9'
  }

  /** Every character is a decimal digit (the empty string included). */
  predicate AllDigits(s: string) {
    forall i :: 0 <= i < |s| ==> IsDigit(s[i])
  }

  function DigitValue(c: char): (d: nat)
    requires IsDigit(c)
    ensures d < 10
  {
    c as int - '0' as int
  }

  function DigitChar(d: nat): (c: char)
    requires d < 10
    ensures IsDigit(c) && DigitValue(c) == d
  {
    ('0' as int + d) as char
  }

  /** The value a string of decimal digits denotes; leading zeros add nothing. */
  function ParseDecimal(s: string): nat
    requires AllDigits(s)
    decreases |s|
  {
    if s == [] then 0 else ParseDecimal(s[..|s| - 1]) * 10 + DigitValue(s[|s| - 1])
  }

  /** `%d` of a non-negative integer: its shortest decimal numeral, "0" for zero. */
  function Decimal(n: nat): (s: string)
    ensures |s| > 0 && AllDigits(s)
    ensures |s| > 1 ==> s[0] != '0'
    decreases n
  {
    if n < 10 then [DigitChar(n)] else Decimal(n / 10) + [DigitChar(n % 10)]
  }

  function Zeros(k: nat): (z: string)
    ensures |z| == k && AllDigits(z)
    ensures forall i :: 0 <= i < k ==> z[i] == '0'
  {
    seq(k, _ => '0')
  }

  /** Left padding with '0' up to `width` characters; longer text is kept whole. */
  function ZeroPad(s: string, width: nat): string {
    if |s| >= width then s else Zeros(width - |s|) + s
  }

  /** Parsing undoes `%d`. */
  lemma {:induction false} ParseDecimalOfDecimal(n: nat)
    ensures ParseDecimal(Decimal(n)) == n
    decreases n
  {
    if n >= 10 {
      var s := Decimal(n);
      assert s[..|s| - 1] == Decimal(n / 10);
      ParseDecimalOfDecimal(n / 10);
    }
  }

  /** `%d` is one-to-one, so numerals of distinct counters are distinct. */
  lemma DecimalInjective(m: nat, n: nat)
    requires Decimal(m) == Decimal(n)
    ensures m == n
  {
    ParseDecimalOfDecimal(m);
    ParseDecimalOfDecimal(n);
  }

  lemma {:induction false} ParseDecimalOfZeros(k: nat)
    ensures ParseDecimal(Zeros(k)) == 0
  {
    if k > 0 {
      assert Zeros(k)[..k - 1] == Zeros(k - 1);
      ParseDecimalOfZeros(k - 1);
    }
  }

  /** Leading zeros do not change the parsed value. */
  lemma {:induction false} ParseDecimalIgnoresLeadingZeros(k: nat, s: string)
    requires AllDigits(s)
    ensures AllDigits(Zeros(k) + s) && ParseDecimal(Zeros(k) + s) == ParseDecimal(s)
    decreases |s|
  {
    var t := Zeros(k) + s;
    if s == [] {
      assert t == Zeros(k);
      ParseDecimalOfZeros(k);
    } else {
      var init := s[..|s| - 1];
      assert t[..|t| - 1] == Zeros(k) + init;
      assert t[|t| - 1] == s[|s| - 1];
      ParseDecimalIgnoresLeadingZeros(k, init);
    }
  }

  /** A number below 10^width has at most `width` digits (one million gives
      the bound six that `%06d` needs). */
  lemma {:induction false} DecimalBelowMillion(n: nat, width: nat)
    requires 1 <= width
    requires n < Pow10(width)
    ensures |Decimal(n)| <= width
    decreases n
  {
    if n >= 10 {
      assert width >= 2;
      assert n / 10 < Pow10(width - 1);
      DecimalBelowMillion(n / 10, width - 1);
    }
  }

  function Pow10(k: nat): (p: nat)
    ensures p >= 1
  {
    if k == 0 then 1 else 10 * Pow10(k - 1)
  }

  /** `fmt.Sprintf("%06d", n)` for a non-negative n: a numeral for n, and below
      one million exactly six digits, with leading zeros. */
  function Sprintf06d(n: nat): (s: string)
    ensures AllDigits(s) && ParseDecimal(s) == n
    ensures n < 1000000 ==> |s| == 6
    ensures |s| >= 6
  {
    var d := Decimal(n);
    ParseDecimalOfDecimal(n);
    assert |d| < 6 ==> ParseDecimal(Zeros(6 - |d|) + d) == n by {
      if |d| < 6 { ParseDecimalIgnoresLeadingZeros(6 - |d|, d); }
    }
    assert n < 1000000 ==> |d| <= 6 by {
      if n < 1000000 { DecimalBelowMillion(n, 6); }
    }
    ZeroPad(d, 6)
  }

  /** Distinct random numbers give distinct pins. */
  lemma PinInjective(m: nat, n: nat)
    requires Sprintf06d(m) == Sprintf06d(n)
    ensures m == n
  {
  }
}
