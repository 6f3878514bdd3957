/**
  The three decline models of the churn simulation (utils/functions.py).

  Each model maps the current month and the churn month to an activity
  multiplier: exactly 1 before the churn month, and a decaying value from the
  churn month on. The floating-point functions `np.exp` and `np.log2` are
  taken as parameters of type `real -> real` and are otherwise unknown; the
  predicates `ExpShape` and `Log2Shape` state the textbook facts about them
  that some lemmas below assume. The per-step ratio of the stepwise model,
  a name the source leaves undefined, is an explicit parameter.
 */
module Decline {

  /** A multiplier as a float can hold it: a finite value, or the infinity
      that results from dividing by a zero logarithm. */
  datatype Factor = Finite(value: real) | Infinite

  /** `ratio ** n` for a non-negative integer exponent. */
  function Pow(ratio: real, n: nat): real
  {
    if n == 0 then 1.0 else ratio * Pow(ratio, n - 1)
  }

  /** Elapsed months counted so that the churn month itself is month 1. */
  function TimeSinceChurn(month: int, churnMonth: int): (t: int)
    requires churnMonth <= month
    ensures t >= 1
    ensures t == 1 <==> month == churnMonth
  {
    month - churnMonth + 1
  }

  /** Complete blocks of `stepSize` months since the churn month
      (Python's `(month - churn_month) // step_size`). */
  function StepsSinceChurn(month: int, churnMonth: int, stepSize: int): (steps: nat)
    requires churnMonth <= month && stepSize >= 1
    ensures steps * stepSize <= month - churnMonth < (steps + 1) * stepSize
  {
    (month - churnMonth) / stepSize
  }

  /** `exponential_decline`: 1 before the churn month, then
      `exp(-decay_rate * time_since_churn)`. */
  function ExponentialDecline(month: int, churnMonth: int, decayRate: real, exp: real -> real): real
  {
    if month < churnMonth then 1.0
    else exp(-decayRate * TimeSinceChurn(month, churnMonth) as real)
  }

  /** `logarithmic_decline`: 1 before the churn month, then
      `1 / log2(base * time_since_churn)`, infinite when the logarithm is 0. */
  function LogarithmicDecline(month: int, churnMonth: int, base: int, log2: real -> real): Factor
  {
    if month < churnMonth then Finite(1.0)
    else
      var logarithm := log2((base * TimeSinceChurn(month, churnMonth)) as real);
      if logarithm == 0.0 then Infinite else Finite(1.0 / logarithm)
  }

  /** `stepwise_decline`: 1 before the churn month, then the ratio raised to
      the number of complete blocks since the churn month. */
  function StepwiseDecline(month: int, churnMonth: int, stepSize: int, ratio: real): real
    requires stepSize >= 1
  {
    if month < churnMonth then 1.0
    else Pow(ratio, StepsSinceChurn(month, churnMonth, stepSize))
  }

  /** The exponential function: strictly increasing, and in (0, 1) below 0. */
  ghost predicate ExpShape(exp: real -> real)
  {
    && (forall x :: x < 0.0 ==> 0.0 < exp(x) < 1.0)
    && (forall x, y :: x < y ==> exp(x) < exp(y))
  }

  /** The binary logarithm from 2 upwards: 1 at 2, and strictly increasing. */
  ghost predicate Log2Shape(log2: real -> real)
  {
    && log2(2.0) == 1.0
    && (forall x, y :: 2.0 <= x < y ==> log2(x) < log2(y))
  }

  // ---------------------------------------------------------------------
  // Powers

  /** A power of a ratio in [0, 1] stays in [0, 1]. */
  lemma {:induction false} PowWithinUnit(ratio: real, n: nat)
    requires 0.0 <= ratio <= 1.0
    ensures 0.0 <= Pow(ratio, n) <= 1.0
  {
    if n > 0 {
      PowWithinUnit(ratio, n - 1);
      var q := Pow(ratio, n - 1);
      assert 0.0 <= ratio * q;
      assert ratio * q <= q by {
        assert q - ratio * q == (1.0 - ratio) * q;
      }
    }
  }

  /** A larger exponent gives a smaller power of a ratio in [0, 1]. */
  lemma {:induction false} PowAntitone(ratio: real, m: nat, n: nat)
    requires 0.0 <= ratio <= 1.0
    requires m <= n
    ensures Pow(ratio, n) <= Pow(ratio, m)
  {
    if m < n {
      PowAntitone(ratio, m, n - 1);
      PowWithinUnit(ratio, n - 1);
      assert ratio * Pow(ratio, n - 1) <= Pow(ratio, n - 1);
    }
  }

  // ---------------------------------------------------------------------
  // The pre-churn guard shared by all three models

  /** All three models return exactly 1 before the churn month. */
  lemma NoDeclineBeforeChurn(month: int, churnMonth: int, decayRate: real, exp: real -> real,
                             base: int, log2: real -> real, stepSize: int, ratio: real)
    requires stepSize >= 1
    requires month < churnMonth
    ensures ExponentialDecline(month, churnMonth, decayRate, exp) == 1.0
    ensures LogarithmicDecline(month, churnMonth, base, log2) == Finite(1.0)
    ensures StepwiseDecline(month, churnMonth, stepSize, ratio) == 1.0
  {
  }

  // ---------------------------------------------------------------------
  // Exponential decline

  /** With a positive decay rate the exponential model is 1 exactly before the
      churn month, and strictly between 0 and 1 from the churn month on. */
  lemma ExponentialOneExactlyBeforeChurn(month: int, churnMonth: int, decayRate: real, exp: real -> real)
    requires decayRate > 0.0
    requires ExpShape(exp)
    ensures ExponentialDecline(month, churnMonth, decayRate, exp) == 1.0 <==> month < churnMonth
    ensures 0.0 < ExponentialDecline(month, churnMonth, decayRate, exp) <= 1.0
  {
    if month >= churnMonth {
      var t := TimeSinceChurn(month, churnMonth) as real;
      assert decayRate * t >= decayRate by {
        assert decayRate * t - decayRate == decayRate * (t - 1.0);
      }
      assert 0.0 < exp(-decayRate * t) < 1.0;
    }
  }

  /** From the churn month on the exponential model falls every month. */
  lemma ExponentialStrictlyDecreasing(earlier: int, later: int, churnMonth: int, decayRate: real, exp: real -> real)
    requires decayRate > 0.0
    requires ExpShape(exp)
    requires churnMonth <= earlier < later
    ensures ExponentialDecline(later, churnMonth, decayRate, exp) < ExponentialDecline(earlier, churnMonth, decayRate, exp)
  {
    var t1 := TimeSinceChurn(earlier, churnMonth) as real;
    var t2 := TimeSinceChurn(later, churnMonth) as real;
    assert -decayRate * t2 < -decayRate * t1 by {
      assert decayRate * t2 - decayRate * t1 == decayRate * (t2 - t1);
    }
  }

  // ---------------------------------------------------------------------
  // Logarithmic decline

  /** The logarithm's argument `base * time_since_churn` is at least 2 when the
      base is at least 2, so with the real binary logarithm the model never
      divides by zero and stays in (0, 1]; with base 2 it is exactly 1 in the
      churn month itself. */
  lemma LogarithmicWellDefined(month: int, churnMonth: int, base: int, log2: real -> real)
    requires base >= 2
    requires Log2Shape(log2)
    ensures churnMonth <= month ==> base * TimeSinceChurn(month, churnMonth) >= 2
    ensures LogarithmicDecline(month, churnMonth, base, log2).Finite?
    ensures 0.0 < LogarithmicDecline(month, churnMonth, base, log2).value <= 1.0
    ensures base == 2 && month == churnMonth ==> LogarithmicDecline(month, churnMonth, base, log2) == Finite(1.0)
  {
    if churnMonth <= month {
      var t := TimeSinceChurn(month, churnMonth);
      assert base * t >= 2 by {
        assert base * t - base == base * (t - 1);
      }
      var x := (base * t) as real;
      assert log2(x) >= 1.0 by {
        if x > 2.0 { assert log2(2.0) < log2(x); }
      }
    }
  }

  /** Taking reciprocals reverses the order of two positive reals. */
  lemma ReciprocalAntitone(a: real, b: real)
    requires 0.0 < a < b
    ensures 1.0 / b < 1.0 / a
  {
    var ra := 1.0 / a;
    var rb := 1.0 / b;
    assert ra * a == 1.0 && rb * b == 1.0;
    assert 0.0 < ra;
    assert ra * a < ra * b by {
      assert ra * b - ra * a == ra * (b - a);
    }
    assert 0.0 < (ra - rb) * b by {
      assert (ra - rb) * b == ra * b - rb * b;
    }
  }

  /** From the churn month on the logarithmic model falls every month. */
  lemma LogarithmicStrictlyDecreasing(earlier: int, later: int, churnMonth: int, base: int, log2: real -> real)
    requires base >= 2
    requires Log2Shape(log2)
    requires churnMonth <= earlier < later
    ensures LogarithmicDecline(later, churnMonth, base, log2).value < LogarithmicDecline(earlier, churnMonth, base, log2).value
  {
    LogarithmicWellDefined(earlier, churnMonth, base, log2);
    LogarithmicWellDefined(later, churnMonth, base, log2);
    var t1 := TimeSinceChurn(earlier, churnMonth);
    var t2 := TimeSinceChurn(later, churnMonth);
    assert base * t1 < base * t2 by {
      assert base * t2 - base * t1 == base * (t2 - t1);
    }
    var l1 := log2((base * t1) as real);
    var l2 := log2((base * t2) as real);
    assert 1.0 <= l1 < l2;
    ReciprocalAntitone(l1, l2);
  }

  // ---------------------------------------------------------------------
  // Stepwise decline

  /** Multiplying by a positive step size keeps the gap between two block
      counts: a larger count reaches at least one block further. */
  lemma ScaleGap(larger: int, smaller: int, stepSize: int)
    requires stepSize >= 1
    requires larger > smaller
    ensures larger * stepSize >= (smaller + 1) * stepSize
  {
    assert larger * stepSize - (smaller + 1) * stepSize == (larger - smaller - 1) * stepSize;
  }

  /** Integer division has only one answer. */
  lemma DivUnique(elapsed: int, stepSize: int, block: int)
    requires stepSize >= 1
    requires block * stepSize <= elapsed < (block + 1) * stepSize
    ensures elapsed / stepSize == block
  {
    var q := elapsed / stepSize;
    assert q * stepSize <= elapsed < (q + 1) * stepSize;
    if q < block {
      ScaleGap(block, q, stepSize);
      assert false;
    }
    if q > block {
      ScaleGap(q, block, stepSize);
      assert false;
    }
  }

  /** The block count is determined by the block of months that holds the month. */
  lemma StepsOnBlock(month: int, churnMonth: int, stepSize: int, block: nat)
    requires stepSize >= 1
    requires churnMonth + block * stepSize <= month < churnMonth + (block + 1) * stepSize
    ensures StepsSinceChurn(month, churnMonth, stepSize) == block
  {
    DivUnique(month - churnMonth, stepSize, block);
  }

  /** The block count never falls as the month advances. */
  lemma StepsMonotone(earlier: int, later: int, churnMonth: int, stepSize: int)
    requires stepSize >= 1
    requires churnMonth <= earlier <= later
    ensures StepsSinceChurn(earlier, churnMonth, stepSize) <= StepsSinceChurn(later, churnMonth, stepSize)
  {
    var s1 := StepsSinceChurn(earlier, churnMonth, stepSize);
    var s2 := StepsSinceChurn(later, churnMonth, stepSize);
    if s1 > s2 {
      ScaleGap(s1, s2, stepSize);
      assert false;
    }
  }

  /** In the churn month itself no block is complete, so the stepwise model
      is the ratio to the power 0, which is 1, whatever the ratio. */
  lemma StepwiseOneInChurnMonth(churnMonth: int, stepSize: int, ratio: real)
    requires stepSize >= 1
    ensures StepsSinceChurn(churnMonth, churnMonth, stepSize) == 0
    ensures StepwiseDecline(churnMonth, churnMonth, stepSize, ratio) == 1.0
  {
    StepsOnBlock(churnMonth, churnMonth, stepSize, 0);
  }

  /** Moving one month on, the block count rises by exactly 1 when the new
      month starts a block, and stays put otherwise. */
  lemma StepsAdvance(month: int, churnMonth: int, stepSize: int)
    requires stepSize >= 1
    requires churnMonth <= month
    ensures StepsSinceChurn(month + 1, churnMonth, stepSize)
         == StepsSinceChurn(month, churnMonth, stepSize) + (if (month + 1 - churnMonth) % stepSize == 0 then 1 else 0)
  {
    var elapsed := month - churnMonth;
    var next := (elapsed + 1) / stepSize;
    var rest := (elapsed + 1) % stepSize;
    assert elapsed + 1 == next * stepSize + rest && 0 <= rest < stepSize;
    assert (next + 1) * stepSize == next * stepSize + stepSize;
    if rest == 0 {
      assert (next - 1) * stepSize == next * stepSize - stepSize;
      DivUnique(elapsed, stepSize, next - 1);
    } else {
      DivUnique(elapsed, stepSize, next);
    }
  }

  /** For a ratio in [0, 1] the stepwise multiplier lies in [0, 1] and never
      rises as the month advances. */
  lemma StepwiseNonIncreasing(earlier: int, later: int, churnMonth: int, stepSize: int, ratio: real)
    requires stepSize >= 1
    requires 0.0 <= ratio <= 1.0
    requires earlier <= later
    ensures 0.0 <= StepwiseDecline(later, churnMonth, stepSize, ratio)
    ensures StepwiseDecline(later, churnMonth, stepSize, ratio) <= StepwiseDecline(earlier, churnMonth, stepSize, ratio) <= 1.0
  {
    if later >= churnMonth {
      PowWithinUnit(ratio, StepsSinceChurn(later, churnMonth, stepSize));
      if earlier >= churnMonth {
        StepsMonotone(earlier, later, churnMonth, stepSize);
        PowAntitone(ratio, StepsSinceChurn(earlier, churnMonth, stepSize), StepsSinceChurn(later, churnMonth, stepSize));
        PowWithinUnit(ratio, StepsSinceChurn(earlier, churnMonth, stepSize));
      }
    }
  }

  /** Churn in month 3, blocks of 3 months, ratio 1/2: no decline in months 3
      to 5, one halving in months 6 to 8, two in months 9 to 11, three in
      month 12. */
  lemma StepwiseHalvingEveryThreeMonths()
    ensures forall month :: 3 <= month <= 5 ==> StepwiseDecline(month, 3, 3, 0.5) == 1.0
    ensures forall month :: 6 <= month <= 8 ==> StepwiseDecline(month, 3, 3, 0.5) == 0.5
    ensures forall month :: 9 <= month <= 11 ==> StepwiseDecline(month, 3, 3, 0.5) == 0.25
    ensures StepwiseDecline(12, 3, 3, 0.5) == 0.125
  {
    forall month | 3 <= month <= 5
      ensures StepwiseDecline(month, 3, 3, 0.5) == 1.0
    {
      StepsOnBlock(month, 3, 3, 0);
    }
    forall month | 6 <= month <= 8
      ensures StepwiseDecline(month, 3, 3, 0.5) == 0.5
    {
      StepsOnBlock(month, 3, 3, 1);
    }
    forall month | 9 <= month <= 11
      ensures StepwiseDecline(month, 3, 3, 0.5) == 0.25
    {
      StepsOnBlock(month, 3, 3, 2);
    }
    StepsOnBlock(12, 3, 3, 3);
  }
}
