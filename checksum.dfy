/**
 * The S10 check digit of an 8-digit serial number: a weighted sum of the
 * digits, reduced modulo 11, with the values 10 and 11 overridden.
 */
module Checksum {
  import opened Wrappers
  import opened Decimal

  /** Position weights, applied left to right. */
  const Weights: seq<nat> := [8, 6, 4, 2, 3, 5, 9, 7]

  /** Exactly 8 characters, all ASCII decimal digits. */
  predicate IsSerial(s: string) {
    |s| == 8 && IsDigits(s)
  }

  /** The one failure: the input is not an 8-digit string. */
  datatype ChecksumError = NotEightDigits

  /** Sum of digit times weight over the pairs `zip` forms (it stops at the shorter input). */
  function WeightedSum(digits: string, weights: seq<nat>): (r: nat)
    requires IsDigits(digits)
    ensures r <= 9 * WeightTotal(weights, 0)
    ensures |digits| == 0 || |weights| == 0 ==> r == 0
  {
    WeightedSumFrom(digits, weights, 0)
  }

  /** The part of the zip sum from position `k` on. */
  function WeightedSumFrom(digits: string, weights: seq<nat>, k: nat): (r: nat)
    requires IsDigits(digits)
    ensures r <= 9 * WeightTotal(weights, k)
    decreases |digits| - k
  {
    if k >= |digits| || k >= |weights| then 0
    else
      DigitTimesWeight(DigitValue(digits[k]), weights[k]);
      DigitValue(digits[k]) * weights[k] + WeightedSumFrom(digits, weights, k + 1)
  }

  /** One term of the zip sum is at most nine times its weight. */
  lemma DigitTimesWeight(d: nat, w: nat)
    requires d <= 9
    ensures d * w <= 9 * w
  {
  }

  /** The sum of the weights from position `k` on. */
  function WeightTotal(weights: seq<nat>, k: nat): nat
    decreases |weights| - k
  {
    if k >= |weights| then 0 else weights[k] + WeightTotal(weights, k + 1)
  }

  /**
   * `11 - (s % 11)` followed by the overrides 10 -> 0 and 11 -> 5: every raw
   * value in 1..11 becomes a single digit, and only 10 and 11 are changed.
   */
  function Override(raw: int): (r: int)
    ensures 1 <= raw <= 11 ==> 0 <= r <= 9
    ensures r == raw <==> raw != 10 && raw != 11
    ensures raw == 10 ==> r == 0
    ensures raw == 11 ==> r == 5
  {
    if raw == 10 then 0 else if raw == 11 then 5 else raw
  }

  /**
   * The check digit of a valid serial. It is a single digit; when the sum is
   * 1 or 0 modulo 11 it is 0 or 5, and otherwise it is the digit that makes
   * the weighted sum plus the digit a multiple of 11.
   */
  function CheckDigit(serial: string): (d: nat)
    requires IsSerial(serial)
    ensures d <= 9
    ensures WeightedSum(serial, Weights) % 11 == 1 ==> d == 0
    ensures WeightedSum(serial, Weights) % 11 == 0 ==> d == 5
    ensures WeightedSum(serial, Weights) % 11 >= 2 ==>
      1 <= d && (WeightedSum(serial, Weights) + d) % 11 == 0
  {
    var s := WeightedSum(serial, Weights);
    Override(11 - s % 11) as nat
  }

  /** `calculate_s10_checksum`: the check digit, or an error for anything but 8 digits. */
  function Calculate(serial: string): (r: Result<nat, ChecksumError>)
    ensures r.Success? <==> IsSerial(serial)
    ensures r.Success? ==> r.value <= 9 && r.value == CheckDigit(serial)
    ensures r.Failure? ==> r.error == NotEightDigits
  {
    if !IsDigits(serial) || |serial| != 8 then Failure(NotEightDigits)
    else Success(CheckDigit(serial))
  }

  /** The override rule as stated on the raw value `11 - (s mod 11)`. */
  lemma OverrideRule(serial: string)
    requires IsSerial(serial)
    ensures var raw := 11 - WeightedSum(serial, Weights) % 11;
      1 <= raw <= 11 &&
      (raw == 10 ==> CheckDigit(serial) == 0) &&
      (raw == 11 ==> CheckDigit(serial) == 5) &&
      (raw <= 9 ==> CheckDigit(serial) == raw)
  {
  }

  /** The zip sum written out term by term for an 8-digit serial. */
  lemma {:induction false} WeightedSumExpanded(serial: string)
    requires IsSerial(serial)
    ensures WeightedSum(serial, Weights) ==
      8 * DigitValue(serial[0]) + 6 * DigitValue(serial[1]) +
      4 * DigitValue(serial[2]) + 2 * DigitValue(serial[3]) +
      3 * DigitValue(serial[4]) + 5 * DigitValue(serial[5]) +
      9 * DigitValue(serial[6]) + 7 * DigitValue(serial[7])
  {
    var s := serial;
    var d0, t0 := DigitValue(s[0]), WeightedSumFrom(s, Weights, 0);
    var d1, t1 := DigitValue(s[1]), WeightedSumFrom(s, Weights, 1);
    var d2, t2 := DigitValue(s[2]), WeightedSumFrom(s, Weights, 2);
    var d3, t3 := DigitValue(s[3]), WeightedSumFrom(s, Weights, 3);
    var d4, t4 := DigitValue(s[4]), WeightedSumFrom(s, Weights, 4);
    var d5, t5 := DigitValue(s[5]), WeightedSumFrom(s, Weights, 5);
    var d6, t6 := DigitValue(s[6]), WeightedSumFrom(s, Weights, 6);
    var d7, t7 := DigitValue(s[7]), WeightedSumFrom(s, Weights, 7);
    var t8 := WeightedSumFrom(s, Weights, 8);
    assert t0 == 8 * d0 + t1 by {
      WeightedSumStep(s, Weights, 0);
      assert Weights[0] == 8;
    }
    assert t1 == 6 * d1 + t2 by {
      WeightedSumStep(s, Weights, 1);
      assert Weights[1] == 6;
    }
    assert t2 == 4 * d2 + t3 by {
      WeightedSumStep(s, Weights, 2);
      assert Weights[2] == 4;
    }
    assert t3 == 2 * d3 + t4 by {
      WeightedSumStep(s, Weights, 3);
      assert Weights[3] == 2;
    }
    assert t4 == 3 * d4 + t5 by {
      WeightedSumStep(s, Weights, 4);
      assert Weights[4] == 3;
    }
    assert t5 == 5 * d5 + t6 by {
      WeightedSumStep(s, Weights, 5);
      assert Weights[5] == 5;
    }
    assert t6 == 9 * d6 + t7 by {
      WeightedSumStep(s, Weights, 6);
      assert Weights[6] == 9;
    }
    assert t7 == 7 * d7 + t8 by {
      WeightedSumStep(s, Weights, 7);
      assert Weights[7] == 7;
    }
    Combine(t0, t1, t2, t3, t4, t5, t6, t7, t8,
      d0, d1, d2, d3, d4, d5, d6, d7);
  }

  /** One step of the zip sum at position `k`. */
  lemma WeightedSumStep(digits: string, weights: seq<nat>, k: nat)
    requires IsDigits(digits) && k < |digits| && k < |weights|
    ensures WeightedSumFrom(digits, weights, k) ==
      weights[k] * DigitValue(digits[k]) + WeightedSumFrom(digits, weights, k + 1)
  {
  }

  /** Collecting the eight steps of the sum into one linear expression. */
  lemma Combine(t0: int, t1: int, t2: int, t3: int, t4: int, t5: int, t6: int, t7: int, t8: int,
    d0: int, d1: int, d2: int, d3: int, d4: int, d5: int, d6: int, d7: int)
    requires t0 == 8 * d0 + t1 && t1 == 6 * d1 + t2 && t2 == 4 * d2 + t3 && t3 == 2 * d3 + t4
    requires t4 == 3 * d4 + t5 && t5 == 5 * d5 + t6 && t6 == 9 * d6 + t7 && t7 == 7 * d7 + t8
    requires t8 == 0
    ensures t0 == 8 * d0 + 6 * d1 + 4 * d2 + 2 * d3 + 3 * d4 + 5 * d5 + 9 * d6 + 7 * d7
  {
  }

  /** Serial `60000000` has check digit 7, as in the identifier `HF600000007CN`. */
  lemma KnownVector()
    ensures Calculate("60000000") == Success(7)
  {
    WeightedSumExpanded("60000000");
  }
}
