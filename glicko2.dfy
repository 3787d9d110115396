/**
  The Glicko-2 1v1 update of core/glicko2.py.  `Glicko2Rating` takes both
  players' (mu, phi, sigma) on the Glicko scale and the two scores, decides
  whether the game is a draw, and asks `Glicko2Core.rate_1vs1` for the new
  ratings.  The core converts to the Glicko-2 scale, runs one rating period per
  player against the other's old rating (`_rate`), and converts back.  Its
  volatility step is a stub that keeps sigma.
 */
module Glicko2 {
  import opened Numerics

  /** Conversion factor between the Glicko and Glicko-2 scales. */
  const ScaleRatio: real := 173.7178
  /** Python's `math.pi`, the double nearest to pi. */
  const Pi: real := 3.141592653589793
  /** Both scores within this distance of 0.5 make a draw. */
  const DrawTolerance: real := 0.000001

  datatype Rating = Rating(mu: real, phi: real, sigma: real)

  /** One game of a rating period: the player's outcome and the opponent's rating. */
  type Game = (real, Rating)

  /** The system parameters of a `Glicko2Core`: the rating centre and the defaults. */
  datatype Core = Core(mu: real, phi: real, sigma: real, tau: real, epsilon: real)
  {
    /**
      `create_rating`: a rating on the Glicko scale, stored as given and not
      scaled down; `rate_1vs1` converts it to the Glicko-2 scale later.
     */
    function CreateRating(mu: real, phi: real, sigma: real): (r: Rating)
      ensures r.mu == mu && r.phi == phi && r.sigma == sigma
      ensures ScaleDown(r).mu == (mu - this.mu) / ScaleRatio
    {
      Rating(mu, phi, sigma)
    }

    /** `scale_down`: the Glicko-2 rating that `scale_up` maps back to `rating`. */
    function ScaleDown(rating: Rating): (r: Rating)
      ensures r.mu * ScaleRatio + this.mu == rating.mu
      ensures r.phi * ScaleRatio == rating.phi && r.sigma == rating.sigma
      ensures rating.mu == this.mu ==> r.mu == 0.0
    {
      Rating((rating.mu - this.mu) / ScaleRatio, rating.phi / ScaleRatio, rating.sigma)
    }

    /** `scale_up`: the Glicko rating that `scale_down` maps back to `rating`. */
    function ScaleUp(rating: Rating): (r: Rating)
      ensures (r.mu - this.mu) / ScaleRatio == rating.mu
      ensures r.phi / ScaleRatio == rating.phi && r.sigma == rating.sigma
    {
      Rating(rating.mu * ScaleRatio + this.mu, rating.phi * ScaleRatio, rating.sigma)
    }

    /** The two conversions are inverse to each other and never touch sigma. */
    lemma ScaleRoundTrip(rating: Rating)
      ensures ScaleUp(ScaleDown(rating)) == rating
      ensures ScaleDown(ScaleUp(rating)) == rating
    {
    }

    /** Scaling up preserves the order of mu. */
    lemma ScaleUpMonotone(a: Rating, b: Rating)
      requires a.mu < b.mu
      ensures ScaleUp(a).mu < ScaleUp(b).mu
    {
    }

    /**
      `rate_1vs1`: both players are rated against the other's old rating;
      player 1 is credited 1.0 and player 2 0.0 unless the game is drawn.
     */
    function RateOneVsOne(num: Numerics, rating1: Rating, rating2: Rating, drawn: bool): (r: (Rating, Rating))
      requires num.Valid() && rating1.sigma != 0.0 && rating2.sigma != 0.0
      ensures r.0.sigma == rating1.sigma && r.1.sigma == rating2.sigma
      ensures !drawn ==> r.0.mu > rating1.mu && r.1.mu < rating2.mu
    {
      var r1 := ScaleDown(rating1);
      var r2 := ScaleDown(rating2);
      var new1 := Rated(num, r1, [(if drawn then 0.5 else 1.0, r2)]);
      var new2 := Rated(num, r2, [(if drawn then 0.5 else 0.0, r1)]);
      RatedKeepsVolatility(num, r1, [(if drawn then 0.5 else 1.0, r2)]);
      RatedKeepsVolatility(num, r2, [(if drawn then 0.5 else 0.0, r1)]);
      if !drawn then
        RatedMovesMu(num, r1, [(1.0, r2)]);
        RatedMovesMu(num, r2, [(0.0, r1)]);
        ScaleUpMonotone(r1, new1);
        ScaleUpMonotone(new2, r2);
        ScaleRoundTrip(rating1);
        ScaleRoundTrip(rating2);
        (ScaleUp(new1), ScaleUp(new2))
      else
        (ScaleUp(new1), ScaleUp(new2))
    }
  }

  /** The `Glicko2Core` that `Glicko2Rating` builds from its class constants. */
  const DefaultCore: Core := Core(1500.0, 350.0, 0.06, 1.0, 0.000001)

  /** `x ** 2`. */
  function Square(x: real): real {
    x * x
  }

  lemma SquareNonNegative(x: real)
    ensures Square(x) >= 0.0
  {
    if x < 0.0 {
      calc {
        Square(x);
        == (-x) * (-x);
        > 0.0;
      }
    } else {
      calc {
        Square(x);
        == x * x;
        >= 0.0;
      }
    }
  }

  lemma SquarePositive(x: real)
    requires x != 0.0
    ensures Square(x) > 0.0
  {
    if x < 0.0 {
      calc {
        Square(x);
        == (-x) * (-x);
        > 0.0;
      }
    } else {
      calc {
        Square(x);
        == x * x;
        > 0.0;
      }
    }
  }

  /** `reduce_impact`: the weight g(phi) of a game against an opponent, in (0, 1]. */
  function ReduceImpact(num: Numerics, rating: Rating): (g: real)
    requires num.Valid()
    ensures 0.0 < g <= 1.0
  {
    var x := 1.0 + (3.0 * Square(rating.phi)) / Square(Pi);
    SquareNonNegative(rating.phi);
    SqrtAtLeastOne(num, x);
    1.0 / num.sqrt(x)
  }

  lemma SqrtAtLeastOne(num: Numerics, x: real)
    requires num.Valid() && x >= 1.0
    ensures num.sqrt(x) >= 1.0
  {
    var s := num.sqrt(x);
    assert s >= 0.0 && s * s == x;
    if s < 1.0 {
      SquareStrict(s, 1.0);
      assert false;
    }
  }

  /** The expected outcome of `rating` against `opponent`, weighted by `impact`. */
  function ExpectedOutcome(num: Numerics, rating: Rating, opponent: Rating, impact: real): (e: real)
    requires num.Valid()
    ensures 0.0 < e < 1.0
  {
    var p := num.exp(-impact * (rating.mu - opponent.mu));
    assert 1.0 + p > 1.0;
    1.0 / (1.0 + p)
  }

  /** One game's contribution `g^2 E (1 - E)` to the variance sum. */
  function VarianceTerm(num: Numerics, rating: Rating, opponent: Rating): real
    requires num.Valid()
  {
    var impact := ReduceImpact(num, opponent);
    var expected := ExpectedOutcome(num, rating, opponent, impact);
    Information(impact, expected)
  }

  /** `(impact ** 2) * expected * (1 - expected)`: the information one game carries. */
  function Information(impact: real, expected: real): real {
    Square(impact) * expected * (1.0 - expected)
  }

  /** Every game adds a positive amount of information. */
  lemma VarianceTermPositive(num: Numerics, rating: Rating, opponent: Rating)
    requires num.Valid()
    ensures VarianceTerm(num, rating, opponent) > 0.0
  {
    var impact := ReduceImpact(num, opponent);
    var expected := ExpectedOutcome(num, rating, opponent, impact);
    SquarePositive(impact);
    ProductPositive(Square(impact), expected);
    ProductPositive(Square(impact) * expected, 1.0 - expected);
    assert Information(impact, expected) == Square(impact) * expected * (1.0 - expected);
  }

  lemma ProductPositive(a: real, b: real)
    requires a > 0.0 && b > 0.0
    ensures a * b > 0.0
  {
  }

  /** One game's contribution `g (s - E)` to the improvement sum. */
  function DeltaTerm(num: Numerics, rating: Rating, game: Game): real
    requires num.Valid()
  {
    var impact := ReduceImpact(num, game.1);
    var expected := ExpectedOutcome(num, rating, game.1, impact);
    Improvement(impact, game.0, expected)
  }

  /** `impact * (outcome - expected)`: how much better than expected one game went. */
  function Improvement(impact: real, outcome: real, expected: real): real {
    impact * (outcome - expected)
  }

  /** The variance sum over the games, accumulated left to right; positive when there is a game. */
  function VarianceSum(num: Numerics, rating: Rating, series: seq<Game>): (v: real)
    requires num.Valid()
    ensures series != [] ==> v > 0.0
    ensures series == [] ==> v == 0.0
  {
    if series == [] then 0.0
    else
      VarianceTermPositive(num, rating, series[|series| - 1].1);
      VarianceSum(num, rating, series[..|series| - 1]) + VarianceTerm(num, rating, series[|series| - 1].1)
  }

  /** The improvement sum over the games, accumulated left to right. */
  function DeltaSum(num: Numerics, rating: Rating, series: seq<Game>): real
    requires num.Valid()
  {
    if series == [] then 0.0
    else DeltaSum(num, rating, series[..|series| - 1]) + DeltaTerm(num, rating, series[|series| - 1])
  }

  /**
    `_determine_sigma`: the source takes `log(sigma^2)` (undefined at 0) and
    then returns the volatility unchanged.
   */
  function DetermineSigma(rating: Rating, delta: real, variance: real): (sigma: real)
    requires rating.sigma != 0.0
    ensures sigma == rating.sigma && sigma != 0.0
  {
    rating.sigma
  }

  /**
    The closing step of `_rate`, from the variance sum `v` and the improvement
    sum `d` of a non-empty period.
   */
  function Closing(num: Numerics, rating: Rating, v: real, d: real): Rating
    requires num.Valid() && rating.sigma != 0.0 && v > 0.0
  {
    ReciprocalPositive(v);
    var variance := if v != 0.0 then 1.0 / v else 0.0;
    var delta := d * variance;
    var sigma := DetermineSigma(rating, delta, variance);
    SquareNonNegative(rating.phi);
    SquarePositive(sigma);
    var precision := 1.0 / (Square(rating.phi) + Square(sigma)) + 1.0 / variance;
    SqrtPositive(num, precision);
    var newPhi := 1.0 / num.sqrt(precision);
    Rating(rating.mu + Square(newPhi) * (delta / variance), newPhi, sigma)
  }

  lemma ReciprocalPositive(v: real)
    requires v > 0.0
    ensures 1.0 / v > 0.0 && 1.0 / (1.0 / v) == v
  {
  }

  /**
    The result of `_rate` on the Glicko-2 scale.  With no games only the
    deviation grows, to sqrt(phi^2 + sigma^2); otherwise the new deviation
    combines that with the games' variance and mu moves by phi'^2 times the
    improvement sum.
   */
  function Rated(num: Numerics, rating: Rating, series: seq<Game>): Rating
    requires num.Valid()
    requires series != [] ==> rating.sigma != 0.0
  {
    if series == [] then
      Rating(rating.mu, num.sqrt(Square(rating.phi) + Square(rating.sigma)), rating.sigma)
    else
      Closing(num, rating, VarianceSum(num, rating, series), DeltaSum(num, rating, series))
  }

  /**
    `_rate` as the source runs it: a loop accumulating the variance and
    improvement sums, then the closed-form finish.
   */
  method Rate(num: Numerics, rating: Rating, series: seq<Game>) returns (r: Rating)
    requires num.Valid()
    requires series != [] ==> rating.sigma != 0.0
    ensures r == Rated(num, rating, series)
  {
    if series == [] {
      var newPhi := num.sqrt(Square(rating.phi) + Square(rating.sigma));
      return Rating(rating.mu, newPhi, rating.sigma);
    }
    var variance, delta := 0.0, 0.0;
    for i := 0 to |series|
      invariant variance == VarianceSum(num, rating, series[..i])
      invariant delta == DeltaSum(num, rating, series[..i])
    {
      SumsStep(num, rating, series, i);
      var (outcome, opponent) := series[i];
      var impact := ReduceImpact(num, opponent);
      var expected := ExpectedOutcome(num, rating, opponent, impact);
      TermsUnfold(num, rating, outcome, opponent);
      variance := variance + Information(impact, expected);
      delta := delta + Improvement(impact, outcome, expected);
    }
    assert series[..|series|] == series;
    return Closing(num, rating, variance, delta);
  }

  /** The two terms of one game, written out as the loop computes them. */
  lemma TermsUnfold(num: Numerics, rating: Rating, outcome: real, opponent: Rating)
    requires num.Valid()
    ensures var impact := ReduceImpact(num, opponent);
            var expected := ExpectedOutcome(num, rating, opponent, impact);
            && VarianceTerm(num, rating, opponent) == Information(impact, expected)
            && DeltaTerm(num, rating, (outcome, opponent)) == Improvement(impact, outcome, expected)
  {
  }

  /** Extending the games by one adds that game's terms to both sums. */
  lemma SumsStep(num: Numerics, rating: Rating, series: seq<Game>, i: int)
    requires num.Valid() && 0 <= i < |series|
    ensures VarianceSum(num, rating, series[..i + 1])
         == VarianceSum(num, rating, series[..i]) + VarianceTerm(num, rating, series[i].1)
    ensures DeltaSum(num, rating, series[..i + 1])
         == DeltaSum(num, rating, series[..i]) + DeltaTerm(num, rating, series[i])
  {
    assert series[..i + 1][..i] == series[..i];
  }

  /** A rating period never changes the volatility. */
  lemma RatedKeepsVolatility(num: Numerics, rating: Rating, series: seq<Game>)
    requires num.Valid() && (series != [] ==> rating.sigma != 0.0)
    ensures Rated(num, rating, series).sigma == rating.sigma
  {
  }

  /** The closing step's deviation is positive and below sqrt(phi^2 + sigma^2). */
  lemma ClosingDeviation(num: Numerics, rating: Rating, v: real, d: real)
    requires num.Valid() && rating.sigma != 0.0 && v > 0.0
    ensures 0.0 < Closing(num, rating, v, d).phi < num.sqrt(Square(rating.phi) + Square(rating.sigma))
  {
    SquareNonNegative(rating.phi);
    SquarePositive(rating.sigma);
    var p := Square(rating.phi) + Square(rating.sigma);
    ReciprocalPositive(p);
    ReciprocalPositive(v);
    var precision := 1.0 / p + 1.0 / (1.0 / v);
    SqrtMonotone(num, 1.0 / p, precision);
    SqrtReciprocal(num, p);
    SqrtPositive(num, 1.0 / p);
    ReciprocalBelowSqrt(num.sqrt(precision), num.sqrt(1.0 / p), num.sqrt(p));
  }

  /**
    The deviation after a rating period: without games mu stays and phi becomes
    sqrt(phi^2 + sigma^2); with games phi' is positive and strictly below that.
   */
  lemma RatedDeviation(num: Numerics, rating: Rating, series: seq<Game>)
    requires num.Valid() && (series != [] ==> rating.sigma != 0.0)
    ensures var inflated := num.sqrt(Square(rating.phi) + Square(rating.sigma));
            && (series == [] ==> Rated(num, rating, series) == Rating(rating.mu, inflated, rating.sigma))
            && (series != [] ==> 0.0 < Rated(num, rating, series).phi < inflated)
  {
    if series != [] {
      ClosingDeviation(num, rating, VarianceSum(num, rating, series), DeltaSum(num, rating, series));
    }
  }

  /** 1/s < q when s > s1 > 0 and s1 * q == 1. */
  lemma ReciprocalBelowSqrt(s: real, s1: real, q: real)
    requires s > s1 > 0.0 && s1 * q == 1.0
    ensures 0.0 < 1.0 / s < q
  {
    assert q > 0.0;
    assert s * q > s1 * q;
    assert (1.0 / s) * (s * q) == q;
  }

  lemma CancelFactor(d: real, variance: real)
    requires variance != 0.0
    ensures (d * variance) / variance == d
  {
  }

  /** mu moves by phi'^2 times the improvement sum: its sign decides the direction. */
  lemma ClosingMu(num: Numerics, rating: Rating, v: real, d: real)
    requires num.Valid() && rating.sigma != 0.0 && v > 0.0
    ensures var r := Closing(num, rating, v, d);
            r.mu == rating.mu + Square(r.phi) * d
  {
    ReciprocalPositive(v);
    CancelFactor(d, 1.0 / v);
  }

  lemma SignOfSurprise(g: real, s: real, e: real)
    requires g > 0.0 && 0.0 < e < 1.0
    ensures s >= 1.0 ==> Improvement(g, s, e) > 0.0
    ensures s <= 0.0 ==> Improvement(g, s, e) < 0.0
  {
  }

  /** A won game improves the sum, a lost game worsens it. */
  lemma DeltaTermSign(num: Numerics, rating: Rating, game: Game)
    requires num.Valid()
    ensures game.0 >= 1.0 ==> DeltaTerm(num, rating, game) > 0.0
    ensures game.0 <= 0.0 ==> DeltaTerm(num, rating, game) < 0.0
  {
    var impact := ReduceImpact(num, game.1);
    SignOfSurprise(impact, game.0, ExpectedOutcome(num, rating, game.1, impact));
  }

  /** With every outcome a win (>= 1) the improvement sum is positive; with every outcome a loss (<= 0) negative. */
  lemma {:induction false} DeltaSumSign(num: Numerics, rating: Rating, series: seq<Game>)
    requires num.Valid() && series != []
    ensures (forall i | 0 <= i < |series| :: series[i].0 >= 1.0) ==> DeltaSum(num, rating, series) > 0.0
    ensures (forall i | 0 <= i < |series| :: series[i].0 <= 0.0) ==> DeltaSum(num, rating, series) < 0.0
  {
    var prefix, last := series[..|series| - 1], series[|series| - 1];
    assert DeltaSum(num, rating, series) == DeltaSum(num, rating, prefix) + DeltaTerm(num, rating, last);
    DeltaTermSign(num, rating, last);
    if prefix != [] {
      DeltaSumSign(num, rating, prefix);
      assert forall i | 0 <= i < |prefix| :: prefix[i] == series[i];
    }
  }

  /** A period of wins strictly raises mu; a period of losses strictly lowers it. */
  lemma RatedMovesMu(num: Numerics, rating: Rating, series: seq<Game>)
    requires num.Valid() && series != [] && rating.sigma != 0.0
    ensures (forall i | 0 <= i < |series| :: series[i].0 >= 1.0) ==> Rated(num, rating, series).mu > rating.mu
    ensures (forall i | 0 <= i < |series| :: series[i].0 <= 0.0) ==> Rated(num, rating, series).mu < rating.mu
  {
    ClosingMu(num, rating, VarianceSum(num, rating, series), DeltaSum(num, rating, series));
    RatedDeviation(num, rating, series);
    DeltaSumSign(num, rating, series);
    var r := Rated(num, rating, series);
    SquarePositive(r.phi);
    var d := DeltaSum(num, rating, series);
    if d > 0.0 {
      ProductPositive(Square(r.phi), d);
    } else if d < 0.0 {
      ProductPositive(Square(r.phi), -d);
    }
  }

  function Abs(x: real): real {
    if x < 0.0 then -x else x
  }

  /**
    The draw test of `Glicko2Rating`: both scores within 1e-6 of one half,
    both ends excluded.  A win or a loss (1 or 0) is never a draw.
   */
  function IsDraw(scoreA: real, scoreB: real): (drawn: bool)
    ensures drawn <==> && 0.5 - DrawTolerance < scoreA < 0.5 + DrawTolerance
                       && 0.5 - DrawTolerance < scoreB < 0.5 + DrawTolerance
    ensures scoreA == 1.0 || scoreA == 0.0 || scoreB == 1.0 || scoreB == 0.0 ==> !drawn
  {
    Abs(scoreA - 0.5) < DrawTolerance && Abs(scoreB - 0.5) < DrawTolerance
  }

  /**
    A `Glicko2Rating` object: the two ratings it created from its inputs, the
    results `rate_1vs1` gave for them, and the two scores, which the object
    uses only to decide whether the game was drawn.
   */
  datatype Glicko2Rating = Glicko2Rating(ratingA: Rating, ratingB: Rating, scoreA: real, scoreB: real,
                                         newA: Rating, newB: Rating)
  {
    /** The state the constructor leaves: the results are the core's rating of the stored game. */
    predicate Settled(num: Numerics)
      requires num.Valid()
    {
      && ratingA.sigma != 0.0 && ratingB.sigma != 0.0
      && (newA, newB) == DefaultCore.RateOneVsOne(num, ratingA, ratingB, IsDraw(scoreA, scoreB))
    }

    /**
      `get_new_ratings`: the updated ratings after the match, player A's
      first.  Of a constructed object: both volatilities are kept, and unless
      the game was drawn A's mu has risen and B's has fallen.
     */
    function GetNewRatings(ghost num: Numerics): (r: (Rating, Rating))
      ensures num.Valid() && Settled(num) ==> r.0.sigma == ratingA.sigma && r.1.sigma == ratingB.sigma
      ensures num.Valid() && Settled(num) && !IsDraw(scoreA, scoreB)
              ==> r.0.mu > ratingA.mu && r.1.mu < ratingB.mu
    {
      (newA, newB)
    }
  }

  /**
    The constructor of `Glicko2Rating` as written: unless both scores are
    one half, player A is credited with the win whatever the scores are.
   */
  function NewGlicko2Rating(num: Numerics, muA: real, phiA: real, sigmaA: real,
                            muB: real, phiB: real, sigmaB: real,
                            scoreA: real, scoreB: real): (g: Glicko2Rating)
    requires num.Valid() && sigmaA != 0.0 && sigmaB != 0.0
    ensures g.ratingA == Rating(muA, phiA, sigmaA) && g.ratingB == Rating(muB, phiB, sigmaB)
    ensures g.scoreA == scoreA && g.scoreB == scoreB && g.Settled(num)
    ensures g.newA.sigma == sigmaA && g.newB.sigma == sigmaB
    ensures !IsDraw(scoreA, scoreB) ==> g.newA.mu > muA && g.newB.mu < muB
  {
    var core := DefaultCore;
    var ratingA := core.CreateRating(muA, phiA, sigmaA);
    var ratingB := core.CreateRating(muB, phiB, sigmaB);
    var drawn := IsDraw(scoreA, scoreB);
    var r := core.RateOneVsOne(num, ratingA, ratingB, drawn);
    Glicko2Rating(ratingA, ratingB, scoreA, scoreB, r.0, r.1)
  }

  /** A decisive game that B won (scores 0 and 1) still raises A's mu and lowers B's. */
  lemma LoserCreditedAsWinner(num: Numerics, rating: Rating)
    requires num.Valid() && rating.sigma != 0.0
    ensures var g := NewGlicko2Rating(num, rating.mu, rating.phi, rating.sigma,
                                      rating.mu, rating.phi, rating.sigma, 0.0, 1.0);
            g.newA.mu > rating.mu && g.newB.mu < rating.mu
  {
    assert !IsDraw(0.0, 1.0);
  }

  /**
    The constructor as its scores describe it: the player with the higher
    score is credited with the win, and equal non-draw scores keep the
    source's choice of A.
   */
  function NewGlicko2RatingByScore(num: Numerics, muA: real, phiA: real, sigmaA: real,
                                   muB: real, phiB: real, sigmaB: real,
                                   scoreA: real, scoreB: real): (g: Glicko2Rating)
    requires num.Valid() && sigmaA != 0.0 && sigmaB != 0.0
    ensures g.newA.sigma == sigmaA && g.newB.sigma == sigmaB
    ensures !IsDraw(scoreA, scoreB) && scoreA >= scoreB ==> g.newA.mu > muA && g.newB.mu < muB
    ensures !IsDraw(scoreA, scoreB) && scoreA < scoreB ==> g.newA.mu < muA && g.newB.mu > muB
  {
    if !IsDraw(scoreA, scoreB) && scoreA < scoreB then
      var swapped := NewGlicko2Rating(num, muB, phiB, sigmaB, muA, phiA, sigmaA, scoreB, scoreA);
      Glicko2Rating(swapped.ratingB, swapped.ratingA, scoreA, scoreB, swapped.newB, swapped.newA)
    else
      NewGlicko2Rating(num, muA, phiA, sigmaA, muB, phiB, sigmaB, scoreA, scoreB)
  }

  /** The corrected constructor agrees with the source whenever A's score is not below B's. */
  lemma ByScoreAgreesWhenAWins(num: Numerics, muA: real, phiA: real, sigmaA: real,
                               muB: real, phiB: real, sigmaB: real, scoreA: real, scoreB: real)
    requires num.Valid() && sigmaA != 0.0 && sigmaB != 0.0 && scoreA >= scoreB
    ensures NewGlicko2RatingByScore(num, muA, phiA, sigmaA, muB, phiB, sigmaB, scoreA, scoreB)
         == NewGlicko2Rating(num, muA, phiA, sigmaA, muB, phiB, sigmaB, scoreA, scoreB)
  {
  }
}
