/**
 * Decimal text of natural numbers over ASCII digits: Python's `str(n)` for
 * `n >= 0`, `int(s)` for a digit string, and `s.zfill(width)` for a string
 * without a sign.
 */
module Decimal {

  function Pow10(k: nat): (r: nat)
    ensures r >= 1
  {
    if k == 0 then 1 else 10 * Pow10(k - 1)
  }

  lemma {:induction false} Pow10Monotone(j: nat, k: nat)
    requires j <= k
    ensures Pow10(j) <= Pow10(k)
    decreases k
  {
    if j < k {
      Pow10Monotone(j, k - 1);
    }
  }

  predicate IsDigit(c: char) {
    '0' <= c <= '9'
  }

  predicate IsDigits(s: string) {
    forall i :: 0 <= i < |s| ==> IsDigit(s[i])
  }

  function DigitValue(c: char): (d: nat)
    requires IsDigit(c)
    ensures d <= 9
  {
    (c - '0') as nat
  }

  /** The character of a single decimal digit; `DigitValue` reads it back. */
  function DigitChar(d: nat): (c: char)
    requires d <= 9
    ensures IsDigit(c) && DigitValue(c) == d
  {
    ('0' as int + d) as char
  }

  /** `int(s)` for a string of ASCII digits, read left to right. */
  function DecimalValue(s: string): (n: nat)
    requires IsDigits(s)
    ensures n < Pow10(|s|)
  {
    if s == [] then 0
    else
      var n := DecimalValue(s[..|s| - 1]);
      var d := DigitValue(s[|s| - 1]);
      assert n * 10 + d < 10 * Pow10(|s| - 1) by {
        assert n <= Pow10(|s| - 1) - 1;
        assert n * 10 <= 10 * Pow10(|s| - 1) - 10;
      }
      n * 10 + d
  }

  /** `str(n)` for `n >= 0`: no sign and no leading zero. */
  function ToDecimal(n: nat): (s: string)
    ensures |s| >= 1 && IsDigits(s)
    ensures DecimalValue(s) == n
    ensures |s| > 1 ==> s[0] != '0'
    ensures |s| == 1 || Pow10(|s| - 1) <= n
  {
    if n < 10 then
      [DigitChar(n)]
    else
      var p := ToDecimal(n / 10);
      var s := p + [DigitChar(n % 10)];
      assert s[..|s| - 1] == p;
      s
  }

  /** Multiplying by ten appends a zero digit to the text. */
  lemma ToDecimalTimesTen(n: nat)
    requires n >= 1
    ensures ToDecimal(10 * n) == ToDecimal(n) + ['0']
  {
    assert (10 * n) / 10 == n && (10 * n) % 10 == 0;
  }

  /** A string of `k` zero digits. */
  function Zeros(k: nat): (z: string)
    ensures |z| == k && IsDigits(z)
    ensures forall i :: 0 <= i < k ==> z[i] == '0'
  {
    if k == 0 then [] else Zeros(k - 1) + ['0']
  }

  /** `s.zfill(width)` for a string with no leading sign. */
  function ZFill(s: string, width: nat): (r: string)
    ensures |r| == if |s| < width then width else |s|
    ensures IsDigits(s) ==> IsDigits(r)
  {
    if |s| < width then Zeros(width - |s|) + s else s
  }

  /** `zfill` ends with the original string and puts only zeros in front of it. */
  lemma ZFillPads(s: string, width: nat)
    ensures var r := ZFill(s, width);
      r[|r| - |s|..] == s && forall i :: 0 <= i < |r| - |s| ==> r[i] == '0'
  {
    var r := ZFill(s, width);
    assert r[|r| - |s|..] == s;
  }

  /** Leading zeros do not change the value read back. */
  lemma {:induction false} LeadingZerosValue(k: nat, s: string)
    requires IsDigits(s)
    ensures IsDigits(Zeros(k) + s) && DecimalValue(Zeros(k) + s) == DecimalValue(s)
    decreases |s|
  {
    var t := Zeros(k) + s;
    assert IsDigits(t);
    if s == [] {
      assert t == Zeros(k);
      ZerosValue(k);
    } else {
      assert t[..|t| - 1] == Zeros(k) + s[..|s| - 1];
      LeadingZerosValue(k, s[..|s| - 1]);
    }
  }

  lemma {:induction false} ZerosValue(k: nat)
    ensures DecimalValue(Zeros(k)) == 0
  {
    if k > 0 {
      assert Zeros(k)[..k - 1] == Zeros(k - 1);
      ZerosValue(k - 1);
    }
  }

  /** `str(n)` has at most `k` characters exactly when `n < 10^k`. */
  lemma ToDecimalFits(n: nat, k: nat)
    requires k >= 1
    ensures |ToDecimal(n)| <= k <==> n < Pow10(k)
  {
    var s := ToDecimal(n);
    if |s| <= k {
      Pow10Monotone(|s|, k);
    } else {
      Pow10Monotone(k, |s| - 1);
    }
  }

  /**
   * Zero-padding `str(n)` to `width` keeps the value: when `n < 10^width` the
   * result is exactly `width` digits reading back as `n`; otherwise it is
   * longer than `width`.
   */
  lemma ZFillDecimal(n: nat, width: nat)
    requires width >= 1
    ensures var r := ZFill(ToDecimal(n), width);
      IsDigits(r) &&
      (n < Pow10(width) ==> |r| == width && DecimalValue(r) == n) &&
      (n >= Pow10(width) ==> |r| > width)
  {
    var s := ToDecimal(n);
    ToDecimalFits(n, width);
    if |s| < width {
      LeadingZerosValue(width - |s|, s);
    }
  }
}
