/**
  The reliability estimator of core/reliability_calculator.py: a closed-form
  curve in the number of votes per item, starting at 50% and rising through
  three exponential terms towards 100%, and a binary search over the vote count
  for a target reliability.
 */
module Reliability {
  import opened Numerics

  const BaseReliability: real := 50.0

  /** The three components' weights and their scales in votes per item. */
  const InitialWeight: real := 25.0
  const InitialScale: real := 2.0
  const SteadyWeight: real := 20.0
  const SteadyScale: real := 10.0
  const FinalWeight: real := 5.0
  const FinalScale: real := 50.0

  /** `weight * (1 - exp(-x / scale))`, one component of the curve. */
  function Gain(num: Numerics, weight: real, scale: real, x: real): real
    requires num.Valid() && scale > 0.0
  {
    weight * (1.0 - num.exp(-x / scale))
  }

  /** The sum of the three components at `x` votes per item. */
  function TotalGain(num: Numerics, x: real): real
    requires num.Valid()
  {
    Gain(num, InitialWeight, InitialScale, x)
    + Gain(num, SteadyWeight, SteadyScale, x)
    + Gain(num, FinalWeight, FinalScale, x)
  }

  /** Each component lies in [0, weight) for x >= 0 and is zero at x = 0. */
  lemma GainBounds(num: Numerics, weight: real, scale: real, x: real)
    requires num.Valid() && scale > 0.0 && weight > 0.0 && x >= 0.0
    ensures 0.0 <= Gain(num, weight, scale, x) < weight
    ensures x == 0.0 ==> Gain(num, weight, scale, x) == 0.0
  {
    var e := num.exp(-x / scale);
    ExpAtZero(num);
    assert -x / scale <= 0.0;
    if -x / scale < 0.0 {
      ExpMonotone(num, -x / scale, 0.0);
    }
    assert 0.0 < e <= 1.0;
    assert weight * (1.0 - e) < weight * 1.0;
  }

  /** Each component is non-decreasing in x. */
  lemma GainMonotone(num: Numerics, weight: real, scale: real, x: real, y: real)
    requires num.Valid() && scale > 0.0 && weight > 0.0 && x <= y
    ensures Gain(num, weight, scale, x) <= Gain(num, weight, scale, y)
  {
    assert -y / scale <= -x / scale;
    if -y / scale < -x / scale {
      ExpMonotone(num, -y / scale, -x / scale);
    }
    assert num.exp(-y / scale) <= num.exp(-x / scale);
    assert weight * (1.0 - num.exp(-x / scale)) <= weight * (1.0 - num.exp(-y / scale));
  }

  /**
    `calculate_reliability(n, v)`: 0 for a degenerate input, otherwise at least
    50 (exactly 50 before any vote) and strictly below 100, so the cap at 100
    never bites.
   */
  function CalculateReliability(num: Numerics, n: int, v: int): (r: real)
    requires num.Valid()
    ensures n <= 0 || v < 0 ==> r == 0.0
    ensures n > 0 && v >= 0 ==> BaseReliability <= r < 100.0
    ensures n > 0 && v == 0 ==> r == BaseReliability
  {
    if n <= 0 || v < 0 then 0.0
    else
      var votesPerItem := v as real / n as real;
      GainBounds(num, InitialWeight, InitialScale, votesPerItem);
      GainBounds(num, SteadyWeight, SteadyScale, votesPerItem);
      GainBounds(num, FinalWeight, FinalScale, votesPerItem);
      var reliability := BaseReliability + TotalGain(num, votesPerItem);
      if reliability < 100.0 then reliability else 100.0
  }

  /** `calculate_reliability(n, v)` for a fixed collection of `n` items, as a function of `v`. */
  function Curve(num: Numerics, n: int): (curve: int --> real)
    requires num.Valid()
    ensures forall v :: curve.requires(v) && curve(v) == CalculateReliability(num, n, v)
  {
    (v: int) requires num.Valid() => CalculateReliability(num, n, v)
  }

  /** More votes never lower the reliability of a fixed collection. */
  lemma MonotoneInVotes(num: Numerics, n: int, v: int, w: int)
    requires num.Valid() && n > 0 && 0 <= v <= w
    ensures CalculateReliability(num, n, v) <= CalculateReliability(num, n, w)
  {
    var x, y := v as real / n as real, w as real / n as real;
    QuotientMonotone(v as real, w as real, n as real);
    GainMonotone(num, InitialWeight, InitialScale, x, y);
    GainMonotone(num, SteadyWeight, SteadyScale, x, y);
    GainMonotone(num, FinalWeight, FinalScale, x, y);
  }

  /** More items never raise the reliability reached with the same votes. */
  lemma AntitoneInItems(num: Numerics, n: int, m: int, v: int)
    requires num.Valid() && 0 < n <= m && v >= 0
    ensures CalculateReliability(num, m, v) <= CalculateReliability(num, n, v)
  {
    var x, y := v as real / m as real, v as real / n as real;
    QuotientAntitone(v as real, n as real, m as real);
    GainMonotone(num, InitialWeight, InitialScale, x, y);
    GainMonotone(num, SteadyWeight, SteadyScale, x, y);
    GainMonotone(num, FinalWeight, FinalScale, x, y);
  }

  /** One component is within weight / (1 + x / scale) of its ceiling. */
  lemma GainNearCeiling(num: Numerics, weight: real, scale: real, x: real)
    requires num.Valid() && scale > 0.0 && weight > 0.0 && x >= 0.0
    ensures (weight - Gain(num, weight, scale, x)) * (1.0 + x / scale) <= weight
  {
    ExpNegBound(num, x / scale);
    NegatedQuotient(x, scale);
    var e := num.exp(-x / scale);
    assert weight - Gain(num, weight, scale, x) == weight * e;
    assert weight * e * (1.0 + x / scale) <= weight * 1.0;
  }

  /** The curve rises past 96% by 120 votes per item. */
  lemma Reaches96(num: Numerics, n: int, v: int)
    requires num.Valid() && n > 0 && v >= 120 * n
    ensures CalculateReliability(num, n, v) >= 96.0
  {
    GainsAt(num, 120.0, 25.0 / 61.0, 20.0 / 13.0, 5.0 / 3.4);
    WholeQuotient(120.0, n);
    assert CalculateReliability(num, n, 120 * n) >= 96.0;
    MonotoneInVotes(num, n, 120 * n, v);
  }

  /** The curve rises past 99% by 500 votes per item. */
  lemma Reaches99(num: Numerics, n: int, v: int)
    requires num.Valid() && n > 0 && v >= 500 * n
    ensures CalculateReliability(num, n, v) >= 99.0
  {
    GainsAt(num, 500.0, 25.0 / 251.0, 20.0 / 51.0, 5.0 / 11.0);
    WholeQuotient(500.0, n);
    assert CalculateReliability(num, n, 500 * n) >= 99.0;
    MonotoneInVotes(num, n, 500 * n, v);
  }

  /**
    At `x` votes per item the three components fall short of their ceilings by
    at most `a`, `b` and `c`, given bounds that `ExpNegBound` supplies.
   */
  lemma GainsAt(num: Numerics, x: real, a: real, b: real, c: real)
    requires num.Valid() && x >= 0.0
    requires a * (1.0 + x / InitialScale) >= InitialWeight
    requires b * (1.0 + x / SteadyScale) >= SteadyWeight
    requires c * (1.0 + x / FinalScale) >= FinalWeight
    ensures TotalGain(num, x) >= 50.0 - a - b - c
  {
    GainShortfall(num, InitialWeight, InitialScale, x, a);
    GainShortfall(num, SteadyWeight, SteadyScale, x, b);
    GainShortfall(num, FinalWeight, FinalScale, x, c);
  }

  lemma GainShortfall(num: Numerics, weight: real, scale: real, x: real, a: real)
    requires num.Valid() && scale > 0.0 && weight > 0.0 && x >= 0.0
    requires a * (1.0 + x / scale) >= weight
    ensures Gain(num, weight, scale, x) >= weight - a
  {
    GainNearCeiling(num, weight, scale, x);
    var d := 1.0 + x / scale;
    assert d > 0.0;
    ShortfallBelow(weight - Gain(num, weight, scale, x), d, a, weight);
  }

  lemma QuotientMonotone(v: real, w: real, n: real)
    requires n > 0.0 && v <= w
    ensures v / n <= w / n
  {
    assert v / n * n == v && w / n * n == w;
  }

  lemma QuotientAntitone(v: real, n: real, m: real)
    requires 0.0 < n <= m && v >= 0.0
    ensures v / m <= v / n
  {
    var x, y := v / m, v / n;
    assert x * m == v && y * n == v;
    assert y >= 0.0;
    assert y * m >= y * n;
  }

  lemma NegatedQuotient(x: real, d: real)
    requires d > 0.0
    ensures -(x / d) == -x / d
  {
  }

  lemma WholeQuotient(x: real, n: int)
    requires n > 0 && x == x.Floor as real
    ensures (x.Floor * n) as real / n as real == x
  {
    assert (x.Floor * n) as real == x * n as real;
  }

  /** From s * d <= w <= a * d with d positive: s <= a. */
  lemma ShortfallBelow(s: real, d: real, a: real, w: real)
    requires d > 0.0 && s * d <= w && w <= a * d
    ensures s <= a
  {
    assert s * d <= a * d;
  }

  /** `abs(reliability - target) < 0.1`: the search's acceptance test. */
  predicate CloseEnough(reliability: real, target: real) {
    -0.1 < reliability - target < 0.1
  }

  /**
    `calculate_required_votes(n, target)`: 0 unless n > 0 and 50 < target < 100;
    otherwise a vote count in [0, 1000 n] that is either accepted by the
    search's closeness test, or the least count reaching the target or one
    below it (every smaller count falls short, and the next count reaches it
    unless the search ended at 1000 n).
   */
  method CalculateRequiredVotes(num: Numerics, n: int, target: real) returns (votes: int)
    requires num.Valid()
    ensures n <= 0 || target <= 50.0 || target >= 100.0 ==> votes == 0
    ensures 0 <= votes && (n > 0 ==> votes <= n * 1000)
    ensures || CloseEnough(CalculateReliability(num, n, votes), target)
            || forall v | 0 <= v < votes :: CalculateReliability(num, n, v) < target
    ensures n > 0 && 50.0 < target < 100.0 ==>
              || CloseEnough(CalculateReliability(num, n, votes), target)
              || (&& (forall v | 0 <= v < votes :: CalculateReliability(num, n, v) < target)
                  && (votes == n * 1000 || CalculateReliability(num, n, votes + 1) >= target))
  {
    if n <= 0 || target <= 50.0 || target >= 100.0 {
      return 0;
    }
    var low, high := 0, n * 1000;
    while low < high
      invariant 0 <= low <= n * 1000 && high <= n * 1000 && low <= high + 1
      invariant forall v | 0 <= v < low :: CalculateReliability(num, n, v) < target
      invariant forall v | high < v <= n * 1000 :: CalculateReliability(num, n, v) >= target
      decreases high - low
    {
      var mid := (low + high) / 2;
      var reliability := CalculateReliability(num, n, mid);
      if CloseEnough(reliability, target) {
        return mid;
      } else if reliability < target {
        forall v | 0 <= v <= mid
          ensures CalculateReliability(num, n, v) < target
        {
          MonotoneInVotes(num, n, v, mid);
        }
        low := mid + 1;
      } else {
        forall v | mid <= v <= n * 1000
          ensures CalculateReliability(num, n, v) >= target
        {
          MonotoneInVotes(num, n, mid, v);
        }
        high := mid - 1;
      }
    }
    return low;
  }
}
