/**
  The Elo update of core/elo.py: the class `Rating` computes, at construction,
  the expected scores `E = 1 / (1 + 10^((r_opp - r) / 400))` of both players and
  their new ratings `r + K * (S - E)`.  The object is only read afterwards, so it
  is modelled as a value built by `Create`.
 */
module Elo {
  import opened Numerics

  const KFactor: real := 16.0
  const Win: real := 1.0
  const Draw: real := 0.5
  const Lost: real := 0.0

  /** The expected score of a player rated `rating` against one rated `opponent`. */
  function Expected(num: Numerics, rating: real, opponent: real): (e: real)
    requires num.Valid()
    ensures 0.0 < e < 1.0
  {
    var p := num.pow10((opponent - rating) / 400.0);
    assert 1.0 + p > 1.0;
    1.0 / (1.0 + p)
  }

  /**
    The stored state of a `Rating` object.  `k` is the step size: core/elo.py
    always uses `KFACTOR`; the Glicko-2 simulation harness passes a fifth
    argument.
   */
  datatype Rating = Rating(
    ratingA: real, ratingB: real, scoreA: real, scoreB: real, k: real,
    expectedA: real, expectedB: real, newRatingA: real, newRatingB: real)
  {
    /**
      The state the constructor leaves: complementary expectations, and the
      results `_get_new_ratings` computes from the stored inputs.
     */
    predicate Settled() {
      && 0.0 < expectedA < 1.0 && expectedA + expectedB == 1.0
      && (newRatingA, newRatingB) == NewRatings(ratingA, ratingB, expectedA, expectedB, scoreA, scoreB, k)
    }

    /**
      `get_new_ratings`: the two results stored at construction.  Of a
      constructed object: the sum of the ratings changes by
      `k * (score_a + score_b - 1)`, and with a positive K a rating rises
      exactly when its player scored above expectation.
     */
    function GetNewRatings(): (r: (real, real))
      ensures Settled() ==> r.0 + r.1 == ratingA + ratingB + k * (scoreA + scoreB - 1.0)
      ensures Settled() && k > 0.0 ==> (r.0 > ratingA <==> scoreA > expectedA)
      ensures Settled() && k > 0.0 ==> (r.1 > ratingB <==> scoreB > expectedB)
    {
      NewRatingsDirection(ratingA, ratingB, expectedA, expectedB, scoreA, scoreB, k);
      (newRatingA, newRatingB)
    }
  }

  /** `_get_expected_scores`: both players' expected scores, which are complementary. */
  function ExpectedScores(num: Numerics, ratingA: real, ratingB: real): (e: (real, real))
    requires num.Valid()
    ensures 0.0 < e.0 < 1.0 && 0.0 < e.1 < 1.0
    ensures e.0 + e.1 == 1.0
    ensures ratingA == ratingB ==> e.0 == 0.5
    ensures ratingA < ratingB <==> e.0 < e.1
  {
    ExpectedComplement(num, ratingA, ratingB);
    ExpectedBelowHalf(num, ratingA, ratingB);
    (Expected(num, ratingA, ratingB), Expected(num, ratingB, ratingA))
  }

  lemma ExpectedComplement(num: Numerics, ratingA: real, ratingB: real)
    requires num.Valid()
    ensures Expected(num, ratingA, ratingB) + Expected(num, ratingB, ratingA) == 1.0
  {
    var d := (ratingB - ratingA) / 400.0;
    var p, q := num.pow10(d), num.pow10((ratingA - ratingB) / 400.0);
    assert (ratingA - ratingB) / 400.0 == -d;
    Pow10Inverse(num, d);
    assert p * q == 1.0;
    var ea, eb := Expected(num, ratingA, ratingB), Expected(num, ratingB, ratingA);
    assert ea * (1.0 + p) == 1.0;
    assert eb * (1.0 + q) == 1.0;
    assert eb * (p + 1.0) == p by {
      assert eb * (1.0 + q) * p == p;
      assert (1.0 + q) * p == p + 1.0;
    }
    assert (ea + eb) * (p + 1.0) == p + 1.0;
  }

  /** A's expectation is below one half exactly when A is rated below B, and one half at equality. */
  lemma ExpectedBelowHalf(num: Numerics, ratingA: real, ratingB: real)
    requires num.Valid()
    ensures ratingA == ratingB ==> Expected(num, ratingA, ratingB) == 0.5
    ensures ratingA < ratingB <==> Expected(num, ratingA, ratingB) < 0.5
  {
    var d := (ratingB - ratingA) / 400.0;
    var p := num.pow10(d);
    var ea := Expected(num, ratingA, ratingB);
    assert ea * (1.0 + p) == 1.0;
    Pow10AtZero(num);
    if ratingA < ratingB {
      assert d > 0.0;
      Pow10Monotone(num, 0.0, d);
      assert p > 1.0;
    } else {
      assert d <= 0.0;
      if d < 0.0 {
        Pow10Monotone(num, d, 0.0);
      }
      assert p <= 1.0;
      assert ea > 0.0;
      assert ea * 2.0 >= ea * (1.0 + p);
      if ratingA == ratingB {
        assert p == 1.0;
      }
    }
  }

  /**
    `_get_new_ratings`: each rating moves by K times its surprise, so the sum
    moves by K times the total surprise.
   */
  function NewRatings(ratingA: real, ratingB: real, expectedA: real, expectedB: real,
                      scoreA: real, scoreB: real, k: real): (r: (real, real))
    ensures r.0 - ratingA + r.1 - ratingB == k * ((scoreA + scoreB) - (expectedA + expectedB))
  {
    (ratingA + k * (scoreA - expectedA), ratingB + k * (scoreB - expectedB))
  }

  /**
    With a positive K a rating rises exactly when the score beats the
    expectation, and stays put exactly when they are equal.
   */
  lemma NewRatingsDirection(ratingA: real, ratingB: real, expectedA: real, expectedB: real,
                      scoreA: real, scoreB: real, k: real)
    ensures var r := NewRatings(ratingA, ratingB, expectedA, expectedB, scoreA, scoreB, k);
            && (k > 0.0 ==> (r.0 > ratingA <==> scoreA > expectedA) && (r.1 > ratingB <==> scoreB > expectedB))
            && (k > 0.0 ==> (r.0 == ratingA <==> scoreA == expectedA) && (r.1 == ratingB <==> scoreB == expectedB))
  {
    if k > 0.0 {
      SignOfStep(k, scoreA - expectedA);
      SignOfStep(k, scoreB - expectedB);
    }
  }

  /** A positive factor keeps the sign of the surprise. */
  lemma SignOfStep(k: real, surprise: real)
    requires k > 0.0
    ensures k * surprise > 0.0 <==> surprise > 0.0
    ensures k * surprise == 0.0 <==> surprise == 0.0
  {
    if surprise < 0.0 {
      assert k * -surprise > 0.0;
    }
  }

  /**
    The constructor `Rating(rating_a, rating_b, score_a, score_b)`; `k` defaults
    to `KFACTOR`.  The sum of the two ratings changes by `k * (score_a + score_b - 1)`,
    so it is preserved exactly when the scores add up to one.
   */
  function Create(num: Numerics, ratingA: real, ratingB: real, scoreA: real, scoreB: real,
                  k: real := KFactor): (r: Rating)
    requires num.Valid()
    ensures r.ratingA == ratingA && r.ratingB == ratingB && r.scoreA == scoreA && r.scoreB == scoreB
    ensures r.k == k && 0.0 < r.expectedA < 1.0 && r.expectedA + r.expectedB == 1.0
    ensures r.newRatingA + r.newRatingB == ratingA + ratingB + k * (scoreA + scoreB - 1.0)
    ensures r.Settled()
  {
    var e := ExpectedScores(num, ratingA, ratingB);
    var n := NewRatings(ratingA, ratingB, e.0, e.1, scoreA, scoreB, k);
    Rating(ratingA, ratingB, scoreA, scoreB, k, e.0, e.1, n.0, n.1)
  }

  /**
    `set_new_settings` re-runs the constructor: nothing of the previous object
    survives, and the step size is `KFACTOR` again.
   */
  function SetNewSettings(num: Numerics, self: Rating, ratingA: real, ratingB: real,
                          scoreA: real, scoreB: real): (r: Rating)
    requires num.Valid()
    ensures r.k == KFactor && r.ratingA == ratingA && r.ratingB == ratingB
    ensures r.GetNewRatings() == (ratingA + KFactor * (scoreA - Expected(num, ratingA, ratingB)),
                                  ratingB + KFactor * (scoreB - Expected(num, ratingB, ratingA)))
  {
    Create(num, ratingA, ratingB, scoreA, scoreB)
  }

  /** A decisive result is zero-sum, whatever the ratings and K. */
  lemma ZeroSum(num: Numerics, ratingA: real, ratingB: real, scoreA: real, scoreB: real, k: real)
    requires num.Valid() && scoreA + scoreB == 1.0
    ensures var r := Create(num, ratingA, ratingB, scoreA, scoreB, k);
            r.newRatingA + r.newRatingB == ratingA + ratingB
  {
  }

  /** The winner gains and the loser loses, each by less than K. */
  lemma WinnerGainsLoserLoses(num: Numerics, ratingA: real, ratingB: real, k: real)
    requires num.Valid() && k > 0.0
    ensures var r := Create(num, ratingA, ratingB, Win, Lost, k);
            && ratingA < r.newRatingA < ratingA + k
            && ratingB - k < r.newRatingB < ratingB
  {
    var r := Create(num, ratingA, ratingB, Win, Lost, k);
    assert r.newRatingA == ratingA + k * (1.0 - r.expectedA);
    assert r.newRatingB == ratingB + k * (0.0 - r.expectedB);
    assert 0.0 < k * (1.0 - r.expectedA) < k;
    assert 0.0 < k * r.expectedB < k;
  }

  /** Two equal ratings, A wins with the shipped K = 16: A gains 8 and B loses 8. */
  lemma EqualRatingsSplitEvenly(num: Numerics, rating: real)
    requires num.Valid()
    ensures Create(num, rating, rating, Win, Lost).GetNewRatings() == (rating + 8.0, rating - 8.0)
  {
    var e := ExpectedScores(num, rating, rating);
    assert e.0 == 0.5 && e.1 == 0.5;
  }

  /**
    Upset amplification: when A is rated below B, A gains more for beating B
    than B would gain for beating A.
   */
  lemma UpsetAmplification(num: Numerics, ratingA: real, ratingB: real, k: real)
    requires num.Valid() && k > 0.0 && ratingA < ratingB
    ensures Create(num, ratingA, ratingB, Win, Lost, k).newRatingA - ratingA
          > Create(num, ratingB, ratingA, Win, Lost, k).newRatingA - ratingB
  {
    var e := ExpectedScores(num, ratingA, ratingB);
    var f := ExpectedScores(num, ratingB, ratingA);
    assert f.0 == e.1 && f.1 == e.0;
    assert e.0 < e.1;
    assert k * (1.0 - e.0) > k * (1.0 - e.1);
  }
}
