/**
  `compute_real_reliability`, the ground-truth metric of the three simulation
  harnesses (the same function is written out in tests/test_glicko2.py,
  tests/test_reliability.py and tests/test_votes_needed.py): the percentage of
  pairs of the reference order that the current order keeps in the same
  relative order.
 */
module Agreement {

  /**
    `{m: idx for idx, m in enumerate(current)}`: every element of `current`
    mapped to its position; a repeated element keeps its last position.
   */
  function PositionMap<T(==,!new)>(current: seq<T>): (pm: map<T, int>)
    ensures forall x :: x in pm <==> x in current
  {
    if current == [] then map[]
    else
      var prefix := current[..|current| - 1];
      var pm := PositionMap(prefix);
      assert forall x :: x in current <==> x in prefix || x == current[|current| - 1];
      pm[current[|current| - 1] := |current| - 1]
  }

  /** Each element is mapped to the position of its last occurrence. */
  lemma {:induction false} PositionMapLast<T(!new)>(current: seq<T>)
    ensures var pm := PositionMap(current);
            && (forall x | x in pm :: 0 <= pm[x] < |current| && current[pm[x]] == x)
            && (forall x, j | x in pm && pm[x] < j < |current| :: current[j] != x)
  {
    if current != [] {
      var prefix := current[..|current| - 1];
      PositionMapLast(prefix);
      assert PositionMap(current) == PositionMap(prefix)[current[|current| - 1] := |current| - 1];
    }
  }

  /** In a sequence without repetitions each element is mapped to its own index. */
  lemma PositionMapDistinct<T(!new)>(current: seq<T>, i: int)
    requires forall a, b | 0 <= a < b < |current| :: current[a] != current[b]
    requires 0 <= i < |current|
    ensures PositionMap(current)[current[i]] == i
  {
    PositionMapLast(current);
  }

  /** Every element of `original` has a position in `current` (the dictionary lookups do not fail). */
  predicate Covers<T>(original: seq<T>, pm: map<T, int>) {
    forall k | 0 <= k < |original| :: original[k] in pm
  }

  /** The pairs (i, k) with i < k < j whose order `pm` keeps. */
  function RowCorrect<T>(original: seq<T>, pm: map<T, int>, i: int, j: int): (c: int)
    requires Covers(original, pm) && 0 <= i < j <= |original|
    ensures 0 <= c <= j - i - 1
    decreases j
  {
    if j == i + 1 then 0
    else RowCorrect(original, pm, i, j - 1) + (if pm[original[i]] < pm[original[j - 1]] then 1 else 0)
  }

  /** The number of pairs in the rows before row `i`: row r has n - r - 1 of them. */
  function PairsBefore(n: int, i: int): int
    requires 0 <= i <= n
  {
    if i == 0 then 0 else PairsBefore(n, i - 1) + (n - i)
  }

  /** The kept pairs among the rows before row `i`; never more than there are pairs. */
  function Correct<T>(original: seq<T>, pm: map<T, int>, i: int): (c: int)
    requires Covers(original, pm) && 0 <= i <= |original|
    ensures 0 <= c <= PairsBefore(|original|, i)
  {
    if i == 0 then 0
    else Correct(original, pm, i - 1) + RowCorrect(original, pm, i - 1, |original|)
  }

  /** All rows together hold n(n-1)/2 pairs. */
  lemma {:induction false} PairCount(n: int, i: int)
    requires 0 <= i <= n
    ensures 2 * PairsBefore(n, i) == i * (2 * n - i - 1)
    ensures i == n ==> PairsBefore(n, n) == n * (n - 1) / 2
  {
    if i > 0 {
      PairCount(n, i - 1);
      assert 2 * PairsBefore(n, i) == (i - 1) * (2 * n - i) + 2 * (n - i);
    }
  }

  /** `(correct / total) * 100 if total > 0 else 0.0`. */
  function Percentage(correct: int, total: int): real {
    if total > 0 then (correct as real / total as real) * 100.0 else 0.0
  }

  lemma PercentageBounds(correct: int, total: int)
    requires 0 <= correct <= total
    ensures 0.0 <= Percentage(correct, total) <= 100.0
    ensures total > 0 && correct == total ==> Percentage(correct, total) == 100.0
  {
    if total > 0 {
      var q := correct as real / total as real;
      assert q * total as real == correct as real;
      assert q <= 1.0;
    }
  }

  /**
    The value `compute_real_reliability(original, current)` returns: the
    percentage of the n(n-1)/2 pairs of `original` that `current` keeps in
    order, and 0 when there are no pairs.
   */
  function RealReliability<T(==,!new)>(original: seq<T>, current: seq<T>): (r: real)
    requires forall k | 0 <= k < |original| :: original[k] in current
    ensures 0.0 <= r <= 100.0
    ensures |original| < 2 ==> r == 0.0
  {
    var pm := PositionMap(current);
    var n := |original|;
    PercentageBounds(Correct(original, pm, n), PairsBefore(n, n));
    PairCount(n, n);
    Percentage(Correct(original, pm, n), PairsBefore(n, n))
  }

  /**
    `compute_real_reliability` with its nested counting loops.  The lookups
    need every element of `original` to occur in `current`.
   */
  method ComputeRealReliability<T(==,!new)>(original: seq<T>, current: seq<T>) returns (r: real)
    requires forall k | 0 <= k < |original| :: original[k] in current
    ensures r == RealReliability(original, current)
    ensures 0.0 <= r <= 100.0
    ensures |original| < 2 ==> r == 0.0
  {
    var correct, total := 0, 0;
    var positionMap := PositionMap(current);
    var n := |original|;
    assert Covers(original, positionMap);
    for i := 0 to n
      invariant correct == Correct(original, positionMap, i)
      invariant total == PairsBefore(n, i)
    {
      for j := i + 1 to n
        invariant correct == Correct(original, positionMap, i) + RowCorrect(original, positionMap, i, j)
        invariant total == PairsBefore(n, i) + (j - i - 1)
      {
        var m1, m2 := original[i], original[j];
        if positionMap[m1] < positionMap[m2] {
          correct := correct + 1;
        }
        total := total + 1;
      }
    }
    PercentageBounds(correct, total);
    if n < 2 {
      PairCount(n, n);
    }
    if total > 0 {
      r := (correct as real / total as real) * 100.0;
    } else {
      r := 0.0;
    }
  }

  /** When `pm` maps every element of `s` to its own index, every pair is kept. */
  lemma {:induction false} RowAllKept<T>(s: seq<T>, pm: map<T, int>, i: int, j: int)
    requires forall k | 0 <= k < |s| :: s[k] in pm && pm[s[k]] == k
    requires 0 <= i < j <= |s|
    ensures RowCorrect(s, pm, i, j) == j - i - 1
    decreases j
  {
    if j > i + 1 {
      RowAllKept(s, pm, i, j - 1);
    }
  }

  lemma {:induction false} AllKept<T>(s: seq<T>, pm: map<T, int>, i: int)
    requires forall k | 0 <= k < |s| :: s[k] in pm && pm[s[k]] == k
    requires 0 <= i <= |s|
    ensures Correct(s, pm, i) == PairsBefore(|s|, i)
  {
    if i > 0 {
      AllKept(s, pm, i - 1);
      RowAllKept(s, pm, i - 1, |s|);
    }
  }

  /** An order without repetitions agrees with itself completely once it has a pair. */
  lemma IdenticalOrder<T(!new)>(s: seq<T>)
    requires forall a, b | 0 <= a < b < |s| :: s[a] != s[b]
    requires |s| >= 2
    ensures forall k | 0 <= k < |s| :: s[k] in s
    ensures RealReliability(s, s) == 100.0
  {
    var pm := PositionMap(s);
    forall k | 0 <= k < |s|
      ensures s[k] in pm && pm[s[k]] == k
    {
      PositionMapDistinct(s, k);
    }
    AllKept(s, pm, |s|);
    PairCount(|s|, |s|);
    PercentageBounds(PairsBefore(|s|, |s|), PairsBefore(|s|, |s|));
  }
}
