/**
  tests/test_glicko2.py: three rating systems side by side on one stream of
  votes: Elo with a K that drops from 32 to 16 once the calculated reliability
  reaches 85, Elo with K fixed at 16, and Glicko-2.  Opponents are drawn
  within 100 Elo points once the calculated reliability reaches 85; the run
  stops at the first vote taken at a calculated reliability of 96 or more.
 */
module Glicko2Sim {
  import opened Numerics
  import Elo
  import Glicko2
  import Sorting
  import Agreement
  import opened Reliability
  import opened Harness

  const ThresholdHigh: real := 85.0
  const StopReliability: real := 96.0

  /** `32 if current_calc < 85 else 16`. */
  function DynamicK(currentCalc: real): (k: real)
    ensures currentCalc < ThresholdHigh ==> k == 32.0
    ensures currentCalc >= ThresholdHigh ==> k == Elo.KFactor
  {
    if currentCalc < ThresholdHigh then 32.0 else 16.0
  }

  /** Every item still has the initial Glicko-2 volatility. */
  predicate VolatilityKept(items: seq<Media>) {
    forall i | 0 <= i < |items| :: items[i].glicko2.sigma == InitialGlicko2.sigma
  }

  /**
    The three updates for a winner `w` over a loser `l`: `Rating(winner.elo,
    loser.elo, WIN, LOST, k_dynamic)`, `Rating(..., 16)` on the fixed ratings,
    and `Glicko2Rating(..., 1, 0)`, which raises the winner's mu and lowers
    the loser's while keeping both volatilities.
   */
  function RateVote(num: Numerics, w: Media, l: Media, currentCalc: real): (r: (Media, Media))
    requires num.Valid() && w.glicko2.sigma != 0.0 && l.glicko2.sigma != 0.0
    ensures (r.0.elo, r.1.elo)
         == Elo.Create(num, w.elo, l.elo, Elo.Win, Elo.Lost, DynamicK(currentCalc)).GetNewRatings()
    ensures (r.0.eloFixed, r.1.eloFixed)
         == Elo.Create(num, w.eloFixed, l.eloFixed, Elo.Win, Elo.Lost, 16.0).GetNewRatings()
    ensures (r.0.glicko2, r.1.glicko2)
         == Glicko2.NewGlicko2Rating(num, w.glicko2.mu, w.glicko2.phi, w.glicko2.sigma,
                                     l.glicko2.mu, l.glicko2.phi, l.glicko2.sigma, 1.0, 0.0).GetNewRatings(num)
    ensures r.0.glicko2.mu > w.glicko2.mu && r.1.glicko2.mu < l.glicko2.mu
    ensures r.0.glicko2.sigma == w.glicko2.sigma && r.1.glicko2.sigma == l.glicko2.sigma
    ensures r.0.id == w.id && r.0.objectiveScore == w.objectiveScore && r.0.voteCount == w.voteCount
    ensures r.1.id == l.id && r.1.objectiveScore == l.objectiveScore && r.1.voteCount == l.voteCount
  {
    var dynamic := Elo.Create(num, w.elo, l.elo, Elo.Win, Elo.Lost, DynamicK(currentCalc)).GetNewRatings();
    var fixed := Elo.Create(num, w.eloFixed, l.eloFixed, Elo.Win, Elo.Lost, 16.0).GetNewRatings();
    var glicko := Glicko2.NewGlicko2Rating(num, w.glicko2.mu, w.glicko2.phi, w.glicko2.sigma,
                                           l.glicko2.mu, l.glicko2.phi, l.glicko2.sigma,
                                           1.0, 0.0).GetNewRatings(num);
    assert !Glicko2.IsDraw(1.0, 0.0);
    (w.(elo := dynamic.0, eloFixed := fixed.0, glicko2 := glicko.0),
     l.(elo := dynamic.1, eloFixed := fixed.1, glicko2 := glicko.1))
  }

  /**
    Writing the rated winner and loser back and counting the vote: both
    counters rise by one and every other item is unchanged.
   */
  function WriteBack(items: seq<Media>, n: nat, winner: int, loser: int, newW: Media, newL: Media)
    : (next: seq<Media>)
    requires Population(items, n) && 0 <= winner < n && 0 <= loser < n && winner != loser
    requires newW.id == items[winner].id && newW.objectiveScore == items[winner].objectiveScore
    requires newL.id == items[loser].id && newL.objectiveScore == items[loser].objectiveScore
    requires newW.voteCount == items[winner].voteCount && newL.voteCount == items[loser].voteCount
    ensures Population(next, n) && SumVotes(next) == SumVotes(items) + 2
    ensures next[winner] == newW.(voteCount := newW.voteCount + 1)
    ensures next[loser] == newL.(voteCount := newL.voteCount + 1)
    ensures forall i | 0 <= i < n && i != winner && i != loser :: next[i] == items[i]
    ensures (VolatilityKept(items) && newW.glicko2.sigma == InitialGlicko2.sigma
             && newL.glicko2.sigma == InitialGlicko2.sigma) ==> VolatilityKept(next)
  {
    var countedW := newW.(voteCount := newW.voteCount + 1);
    var countedL := newL.(voteCount := newL.voteCount + 1);
    var once := items[winner := countedW];
    SumVotesUpdate(items, winner, countedW);
    SumVotesUpdate(once, loser, countedL);
    once[loser := countedL]
  }

  /**
    The choice of a vote: `media_a` least voted, `media_b` chosen by
    `ChooseOpponent`, and the item with the higher objective score the winner.
   */
  method ChooseVote(items: seq<Media>, n: nat, currentCalc: real)
    returns (a: int, b: int, winner: int, loser: int)
    requires Population(items, n) && n >= 2
    ensures 0 <= a < n && 0 <= b < n && a != b
    ensures forall i | 0 <= i < n :: items[a].voteCount <= items[i].voteCount
    ensures currentCalc >= ThresholdHigh && (exists m | 0 <= m < n :: m != a && Close(items, m, a))
            ==> Close(items, b, a)
    ensures (winner, loser) == Decide(items, a, b)
  {
    a := ChooseLeastVoted(items);
    b := ChooseOpponent(items, a, currentCalc);
    winner, loser := Decide(items, a, b).0, Decide(items, a, b).1;
  }

  /**
    `media_a = a`, `media_b = b` is a vote the loop may take: `a` is least
    voted, `b` is another item, and from 85% on `b` is within 100 Elo points
    of `a` whenever some item is.
   */
  predicate Admissible(items: seq<Media>, n: nat, a: int, b: int, currentCalc: real)
    requires Population(items, n)
  {
    && 0 <= a < n && 0 <= b < n && a != b
    && (forall i | 0 <= i < n :: items[a].voteCount <= items[i].voteCount)
    && (currentCalc >= ThresholdHigh && (exists m | 0 <= m < n :: m != a && Close(items, m, a))
        ==> Close(items, b, a))
  }

  /**
    The population after the vote between `a` and `b`: the better item is
    rated the winner in all three systems, both counters rise, and no other
    item changes.  The winner's mu rises and the loser's falls.
   */
  function Vote(num: Numerics, items: seq<Media>, n: nat, a: int, b: int, currentCalc: real): (next: seq<Media>)
    requires num.Valid() && Population(items, n) && VolatilityKept(items)
    requires 0 <= a < n && 0 <= b < n && a != b
    ensures Population(next, n) && SumVotes(next) == SumVotes(items) + 2 && VolatilityKept(next)
    ensures var (w, l) := Decide(items, a, b);
            && next[w].glicko2.mu > items[w].glicko2.mu && next[l].glicko2.mu < items[l].glicko2.mu
            && next[w].voteCount == items[w].voteCount + 1 && next[l].voteCount == items[l].voteCount + 1
    ensures var (w, l) := Decide(items, a, b);
            var (newW, newL) := RateVote(num, items[w], items[l], currentCalc);
            next[w] == newW.(voteCount := newW.voteCount + 1) && next[l] == newL.(voteCount := newL.voteCount + 1)
    ensures forall i | 0 <= i < n && i != a && i != b :: next[i] == items[i]
  {
    var (winner, loser) := Decide(items, a, b);
    var (newW, newL) := RateVote(num, items[winner], items[loser], currentCalc);
    WriteBack(items, n, winner, loser, newW, newL)
  }

  /** `next` is the population after some vote the loop may take from `items`. */
  ghost predicate Step(num: Numerics, n: nat, items: seq<Media>, currentCalc: real, next: seq<Media>)
    requires num.Valid() && Population(items, n) && VolatilityKept(items)
  {
    exists a, b | Admissible(items, n, a, b, currentCalc) :: next == Vote(num, items, n, a, b, currentCalc)
  }

  /** Vote j of the trace was taken at the calculated reliability logged for it. */
  ghost predicate SteppedAt(num: Numerics, n: nat, trace: seq<seq<Media>>, calcReliabilityData: seq<real>, j: int)
    requires num.Valid() && 0 <= j < |calcReliabilityData| && |trace| == |calcReliabilityData| + 1
  {
    && Population(trace[j], n) && VolatilityKept(trace[j])
    && Step(num, n, trace[j], calcReliabilityData[j], trace[j + 1])
  }

  /**
    The ratings of the whole run: `trace[j]` is the population after j
    votes, starting from the fresh population, each one a vote after the last.
   */
  ghost predicate Traced(num: Numerics, n: nat, trace: seq<seq<Media>>, calcReliabilityData: seq<real>)
    requires num.Valid()
  {
    && |trace| == |calcReliabilityData| + 1 && trace[0] == Original(n)
    && forall j | 0 <= j < |calcReliabilityData| :: SteppedAt(num, n, trace, calcReliabilityData, j)
  }

  /** One more vote extends the trace. */
  lemma TracedExtend(num: Numerics, n: nat, trace: seq<seq<Media>>, calcReliabilityData: seq<real>,
                     currentCalc: real, a: int, b: int, next: seq<Media>)
    requires num.Valid() && Traced(num, n, trace, calcReliabilityData)
    requires Population(trace[|trace| - 1], n) && VolatilityKept(trace[|trace| - 1])
    requires Admissible(trace[|trace| - 1], n, a, b, currentCalc)
    requires next == Vote(num, trace[|trace| - 1], n, a, b, currentCalc)
    ensures Traced(num, n, trace + [next], calcReliabilityData + [currentCalc])
  {
    var trace', calc' := trace + [next], calcReliabilityData + [currentCalc];
    forall j | 0 <= j < |calc'|
      ensures SteppedAt(num, n, trace', calc', j)
    {
      if j < |calcReliabilityData| {
        assert SteppedAt(num, n, trace, calcReliabilityData, j);
        assert trace'[j] == trace[j] && trace'[j + 1] == trace[j + 1] && calc'[j] == calcReliabilityData[j];
      } else {
        assert trace'[j] == trace[|trace| - 1] && trace'[j + 1] == next && calc'[j] == currentCalc;
        assert Step(num, n, trace'[j], calc'[j], trace'[j + 1]);
      }
    }
  }

  /** A vote taken below 96% is taken before 120 votes per item. */
  lemma BelowStop(num: Numerics, n: int)
    requires num.Valid() && n > 0
    ensures forall v | v >= 0 && Curve(num, n)(v) < StopReliability :: v < 120 * n
  {
    forall v | v >= 0 && Curve(num, n)(v) < StopReliability
      ensures v < 120 * n
    {
      if v >= 120 * n {
        Reaches96(num, n, v);
      }
    }
  }

  /**
    The per-vote record: the agreement of each system's ranking
    (`sorted(medias, key=...)`) with the objective order.
   */
  method Record(items: seq<Media>, medias: seq<int>, n: nat)
    returns (realDynamic: real, realFixed: real, realGlicko2: real)
    requires IsShuffle(medias, n)
    ensures realDynamic == RankAgreement(n, medias, EloKey(items))
    ensures realFixed == RankAgreement(n, medias, EloFixedKey(items))
    ensures realGlicko2 == RankAgreement(n, medias, MuKey(items))
    ensures 0.0 <= realDynamic <= 100.0 && 0.0 <= realFixed <= 100.0 && 0.0 <= realGlicko2 <= 100.0
  {
    RankingIsShuffle(medias, n, EloKey(items));
    var sortedDynamic := Sorting.SortDesc(medias, EloKey(items));
    realDynamic := Agreement.ComputeRealReliability(Ids(n), sortedDynamic);
    RankingIsShuffle(medias, n, EloFixedKey(items));
    var sortedFixed := Sorting.SortDesc(medias, EloFixedKey(items));
    realFixed := Agreement.ComputeRealReliability(Ids(n), sortedFixed);
    RankingIsShuffle(medias, n, MuKey(items));
    var sortedGlicko2 := Sorting.SortDesc(medias, MuKey(items));
    realGlicko2 := Agreement.ComputeRealReliability(Ids(n), sortedGlicko2);
  }

  /** Every entry is a percentage. */
  predicate Percentages(s: seq<real>) {
    forall k | 0 <= k < |s| :: 0.0 <= s[k] <= 100.0
  }

  /**
    The body of one iteration after `current_calc` is known: a vote the loop
    may take, and the agreement of the three rankings after it.
   */
  method Round(num: Numerics, items: seq<Media>, medias: seq<int>, n: nat, currentCalc: real)
    returns (next: seq<Media>, a: int, b: int, realDynamic: real, realFixed: real, realGlicko2: real)
    requires num.Valid() && Population(items, n) && n >= 2 && VolatilityKept(items) && IsShuffle(medias, n)
    ensures Population(next, n) && SumVotes(next) == SumVotes(items) + 2 && VolatilityKept(next)
    ensures Admissible(items, n, a, b, currentCalc) && next == Vote(num, items, n, a, b, currentCalc)
    ensures realDynamic == RankAgreement(n, medias, EloKey(next))
    ensures realFixed == RankAgreement(n, medias, EloFixedKey(next))
    ensures realGlicko2 == RankAgreement(n, medias, MuKey(next))
    ensures 0.0 <= realDynamic <= 100.0 && 0.0 <= realFixed <= 100.0 && 0.0 <= realGlicko2 <= 100.0
  {
    var winner, loser;
    a, b, winner, loser := ChooseVote(items, n, currentCalc);
    var (newW, newL) := RateVote(num, items[winner], items[loser], currentCalc);
    next := WriteBack(items, n, winner, loser, newW, newL);
    realDynamic, realFixed, realGlicko2 := Record(next, medias, n);
  }

  /** Entry k of the log is the k + 1-th vote and the curve at the k votes cast before it. */
  predicate Logged(curve: int --> real, votesData: seq<int>, calcReliabilityData: seq<real>)
    requires forall v | v >= 0 :: curve.requires(v)
  {
    && |calcReliabilityData| == |votesData|
    && forall k | 0 <= k < |votesData| :: votesData[k] == k + 1 && calcReliabilityData[k] == curve(k)
  }

  /** Logging the next vote keeps the log. */
  lemma LoggedExtend(curve: int --> real, votesData: seq<int>, calcReliabilityData: seq<real>)
    requires forall v | v >= 0 :: curve.requires(v)
    requires Logged(curve, votesData, calcReliabilityData)
    ensures Logged(curve, votesData + [|votesData| + 1], calcReliabilityData + [curve(|votesData|)])
  {
  }

  /** No logged vote was taken at 96% or more. */
  predicate Below(calcReliabilityData: seq<real>) {
    forall k | 0 <= k < |calcReliabilityData| :: calcReliabilityData[k] < StopReliability
  }

  /**
    Record k: the ratings `trace[k + 1]` after k + 1 votes, ranked by each
    system from the one shuffle `medias`, give the three agreements.
   */
  predicate RankedAt(n: nat, medias: seq<int>, trace: seq<seq<Media>>, eloDynamicReliability: seq<real>,
                     eloFixedReliability: seq<real>, glicko2Reliability: seq<real>, k: int)
    requires IsShuffle(medias, n) && 0 <= k < |eloDynamicReliability| && |trace| == |eloDynamicReliability| + 1
    requires |eloFixedReliability| == |eloDynamicReliability| && |glicko2Reliability| == |eloDynamicReliability|
  {
    && eloDynamicReliability[k] == RankAgreement(n, medias, EloKey(trace[k + 1]))
    && eloFixedReliability[k] == RankAgreement(n, medias, EloFixedKey(trace[k + 1]))
    && glicko2Reliability[k] == RankAgreement(n, medias, MuKey(trace[k + 1]))
  }

  /** The records so far: one per vote, each the agreements of the rankings after that vote. */
  predicate Tracked(n: nat, medias: seq<int>, trace: seq<seq<Media>>, eloDynamicReliability: seq<real>,
                    eloFixedReliability: seq<real>, glicko2Reliability: seq<real>)
  {
    && IsShuffle(medias, n)
    && |trace| == |eloDynamicReliability| + 1
    && |eloFixedReliability| == |eloDynamicReliability| && |glicko2Reliability| == |eloDynamicReliability|
    && Percentages(eloDynamicReliability) && Percentages(eloFixedReliability) && Percentages(glicko2Reliability)
    && (forall k | 0 <= k < |trace| :: Population(trace[k], n) && SumVotes(trace[k]) == 2 * k)
    && forall k | 0 <= k < |eloDynamicReliability| ::
         RankedAt(n, medias, trace, eloDynamicReliability, eloFixedReliability, glicko2Reliability, k)
  }

  /** One more vote's record extends the records. */
  lemma TrackedExtend(n: nat, medias: seq<int>, trace: seq<seq<Media>>, eloDynamicReliability: seq<real>,
                      eloFixedReliability: seq<real>, glicko2Reliability: seq<real>,
                      items: seq<Media>, realDynamic: real, realFixed: real, realGlicko2: real)
    requires Tracked(n, medias, trace, eloDynamicReliability, eloFixedReliability, glicko2Reliability)
    requires Population(items, n) && SumVotes(items) == 2 * |trace|
    requires realDynamic == RankAgreement(n, medias, EloKey(items))
    requires realFixed == RankAgreement(n, medias, EloFixedKey(items))
    requires realGlicko2 == RankAgreement(n, medias, MuKey(items))
    ensures Tracked(n, medias, trace + [items], eloDynamicReliability + [realDynamic],
                    eloFixedReliability + [realFixed], glicko2Reliability + [realGlicko2])
  {
    var trace', dynamic', fixed', glicko2' := trace + [items], eloDynamicReliability + [realDynamic],
      eloFixedReliability + [realFixed], glicko2Reliability + [realGlicko2];
    forall k | 0 <= k < |dynamic'|
      ensures RankedAt(n, medias, trace', dynamic', fixed', glicko2', k)
    {
      if k < |eloDynamicReliability| {
        assert RankedAt(n, medias, trace, eloDynamicReliability, eloFixedReliability, glicko2Reliability, k);
        assert trace'[k + 1] == trace[k + 1];
        assert dynamic'[k] == eloDynamicReliability[k] && fixed'[k] == eloFixedReliability[k];
        assert glicko2'[k] == glicko2Reliability[k];
      } else {
        assert trace'[k + 1] == items;
      }
    }
  }

  /**
    With two items the better one wins every vote: along the trace item 0 is
    never ranked below item 1 by any of the three ratings, and after the first
    vote it is ranked strictly above by all three.
   */
  lemma {:induction false} TwoItemsLeader(num: Numerics, trace: seq<seq<Media>>, calcReliabilityData: seq<real>,
                                          j: int)
    requires num.Valid() && Traced(num, 2, trace, calcReliabilityData) && 0 <= j < |trace|
    ensures Population(trace[j], 2) && VolatilityKept(trace[j])
    ensures && trace[j][0].elo >= trace[j][1].elo && trace[j][0].eloFixed >= trace[j][1].eloFixed
            && trace[j][0].glicko2.mu >= trace[j][1].glicko2.mu
    ensures j > 0 ==> && trace[j][0].elo > trace[j][1].elo && trace[j][0].eloFixed > trace[j][1].eloFixed
                      && trace[j][0].glicko2.mu > trace[j][1].glicko2.mu
    decreases j
  {
    if j > 0 {
      TwoItemsLeader(num, trace, calcReliabilityData, j - 1);
      assert SteppedAt(num, 2, trace, calcReliabilityData, j - 1);
      StepKeepsLeader(num, trace[j - 1], calcReliabilityData[j - 1], trace[j]);
    }
  }

  /** With two items any vote of the loop raises all three ratings of item 0 and lowers those of item 1. */
  lemma StepKeepsLeader(num: Numerics, items: seq<Media>, currentCalc: real, next: seq<Media>)
    requires num.Valid() && Population(items, 2) && VolatilityKept(items)
    requires Step(num, 2, items, currentCalc, next)
    ensures Population(next, 2) && VolatilityKept(next)
    ensures && next[0].elo > items[0].elo && next[1].elo < items[1].elo
            && next[0].eloFixed > items[0].eloFixed && next[1].eloFixed < items[1].eloFixed
            && next[0].glicko2.mu > items[0].glicko2.mu && next[1].glicko2.mu < items[1].glicko2.mu
  {
    var a, b :| Admissible(items, 2, a, b, currentCalc) && next == Vote(num, items, 2, a, b, currentCalc);
    VoteKeepsLeader(num, items, a, b, currentCalc);
  }

  /** With two items a vote raises all three ratings of item 0 and lowers those of item 1. */
  lemma VoteKeepsLeader(num: Numerics, items: seq<Media>, a: int, b: int, currentCalc: real)
    requires num.Valid() && Population(items, 2) && VolatilityKept(items) && 0 <= a < 2 && 0 <= b < 2 && a != b
    ensures var next := Vote(num, items, 2, a, b, currentCalc);
            && next[0].elo > items[0].elo && next[1].elo < items[1].elo
            && next[0].eloFixed > items[0].eloFixed && next[1].eloFixed < items[1].eloFixed
            && next[0].glicko2.mu > items[0].glicko2.mu && next[1].glicko2.mu < items[1].glicko2.mu
  {
    DecideStrict(items, 2, a, b);
    assert Decide(items, a, b) == (0, 1);
    var rated := RateVote(num, items[0], items[1], currentCalc);
    var next := WriteBack(items, 2, 0, 1, rated.0, rated.1);
    assert Vote(num, items, 2, a, b, currentCalc) == next;
    assert next[0] == rated.0.(voteCount := rated.0.voteCount + 1);
    assert next[1] == rated.1.(voteCount := rated.1.voteCount + 1);
    Elo.WinnerGainsLoserLoses(num, items[0].elo, items[1].elo, DynamicK(currentCalc));
    Elo.WinnerGainsLoserLoses(num, items[0].eloFixed, items[1].eloFixed, 16.0);
  }

  /**
    With two items every record agrees fully with the objective order, for
    all three systems and whatever order the shuffle left them in.
   */
  lemma TwoItemsAgreeFully(num: Numerics, medias: seq<int>, trace: seq<seq<Media>>, calcReliabilityData: seq<real>,
                           eloDynamicReliability: seq<real>, eloFixedReliability: seq<real>,
                           glicko2Reliability: seq<real>)
    requires num.Valid() && Traced(num, 2, trace, calcReliabilityData)
    requires Tracked(2, medias, trace, eloDynamicReliability, eloFixedReliability, glicko2Reliability)
    ensures forall k | 0 <= k < |eloDynamicReliability| ::
              eloDynamicReliability[k] == 100.0 && eloFixedReliability[k] == 100.0 && glicko2Reliability[k] == 100.0
  {
    forall k | 0 <= k < |eloDynamicReliability|
      ensures eloDynamicReliability[k] == 100.0 && eloFixedReliability[k] == 100.0 && glicko2Reliability[k] == 100.0
    {
      assert RankedAt(2, medias, trace, eloDynamicReliability, eloFixedReliability, glicko2Reliability, k);
      TwoItemsLeader(num, trace, calcReliabilityData, k + 1);
      TwoItemsRankedInOrder(medias, EloKey(trace[k + 1]));
      TwoItemsRankedInOrder(medias, EloFixedKey(trace[k + 1]));
      TwoItemsRankedInOrder(medias, MuKey(trace[k + 1]));
    }
  }

  /**
    One iteration after `current_calc` is known, with its records: the
    round's vote extends the trace and its three agreements extend the records.
   */
  method Advance(num: Numerics, items: seq<Media>, medias: seq<int>, n: nat, currentCalc: real,
                 ghost trace: seq<seq<Media>>, ghost calcReliabilityData: seq<real>,
                 ghost eloDynamicReliability: seq<real>, ghost eloFixedReliability: seq<real>,
                 ghost glicko2Reliability: seq<real>)
    returns (next: seq<Media>, realDynamic: real, realFixed: real, realGlicko2: real)
    requires num.Valid() && Population(items, n) && n >= 2 && VolatilityKept(items)
    requires Traced(num, n, trace, calcReliabilityData) && trace[|trace| - 1] == items
    requires Tracked(n, medias, trace, eloDynamicReliability, eloFixedReliability, glicko2Reliability)
    ensures Population(next, n) && SumVotes(next) == SumVotes(items) + 2 && VolatilityKept(next)
    ensures Traced(num, n, trace + [next], calcReliabilityData + [currentCalc])
    ensures Tracked(n, medias, trace + [next], eloDynamicReliability + [realDynamic],
                    eloFixedReliability + [realFixed], glicko2Reliability + [realGlicko2])
  {
    var a, b;
    next, a, b, realDynamic, realFixed, realGlicko2 := Round(num, items, medias, n, currentCalc);
    TracedExtend(num, n, trace, calcReliabilityData, currentCalc, a, b, next);
    TrackedExtend(n, medias, trace, eloDynamicReliability, eloFixedReliability, glicko2Reliability,
                  next, realDynamic, realFixed, realGlicko2);
  }

  /**
    The loop of `simulate_and_plot(n, seed)` with the calculated reliability
    after `v` votes supplied as `curve(v)`: one record per vote, the k-th
    calculated reliability is the curve at the k votes cast before it, and
    the run ends with the first vote taken at 96% or more.  `trace` is the
    population after each vote: it starts fresh, every entry is a vote the
    loop may take from the one before at the logged calculated reliability,
    and the k-th agreements are those of the three rankings of the shuffle
    `medias` by `trace[k + 1]`.  The run is finite when the curve reaches 96%
    by 120 votes per item.
   */
  method SimulateWith(num: Numerics, n: nat, curve: int --> real)
    returns (votesData: seq<int>, calcReliabilityData: seq<real>, eloDynamicReliability: seq<real>,
             eloFixedReliability: seq<real>, glicko2Reliability: seq<real>, totalVotes: int,
             ghost medias: seq<int>, ghost trace: seq<seq<Media>>)
    requires num.Valid() && n >= 2
    requires forall v | v >= 0 :: curve.requires(v)
    requires forall v | v >= 0 && curve(v) < StopReliability :: v < 120 * n
    ensures totalVotes > 0 && |votesData| == totalVotes && |calcReliabilityData| == totalVotes
    ensures |eloDynamicReliability| == totalVotes && |eloFixedReliability| == totalVotes
    ensures |glicko2Reliability| == totalVotes && totalVotes <= 120 * n + 1
    ensures forall k | 0 <= k < totalVotes :: votesData[k] == k + 1
    ensures forall k | 0 <= k < totalVotes :: calcReliabilityData[k] == curve(k)
    ensures Percentages(eloDynamicReliability) && Percentages(eloFixedReliability)
    ensures Percentages(glicko2Reliability)
    ensures calcReliabilityData[totalVotes - 1] >= StopReliability
    ensures forall k | 0 <= k < totalVotes - 1 :: calcReliabilityData[k] < StopReliability
    ensures Traced(num, n, trace, calcReliabilityData)
    ensures Tracked(n, medias, trace, eloDynamicReliability, eloFixedReliability, glicko2Reliability)
  {
    var items := Original(n);
    assert IsShuffle(Ids(n), n);
    var shuffled :| IsShuffle(shuffled, n);
    medias, trace := shuffled, [items];
    votesData, calcReliabilityData := [], [];
    eloDynamicReliability, eloFixedReliability, glicko2Reliability := [], [], [];
    var total := 0;
    ghost var ceiling := 120 * n;
    while true
      invariant Population(items, n) && SumVotes(items) == 2 * total && VolatilityKept(items)
      invariant 0 <= total <= ceiling
      invariant |votesData| == total && Logged(curve, votesData, calcReliabilityData)
      invariant Below(calcReliabilityData)
      invariant |trace| == total + 1 && trace[total] == items && shuffled == medias
      invariant Traced(num, n, trace, calcReliabilityData)
      invariant Tracked(n, medias, trace, eloDynamicReliability, eloFixedReliability, glicko2Reliability)
      decreases ceiling - total
    {
      var currentCalc := curve(total);
      var realDynamic, realFixed, realGlicko2;
      items, realDynamic, realFixed, realGlicko2 := Advance(num, items, shuffled, n, currentCalc, trace,
        calcReliabilityData, eloDynamicReliability, eloFixedReliability, glicko2Reliability);
      total := total + 1;
      if total % 1 == 0 {
        LoggedExtend(curve, votesData, calcReliabilityData);
        trace := trace + [items];
        votesData := votesData + [total];
        calcReliabilityData := calcReliabilityData + [currentCalc];
        eloDynamicReliability := eloDynamicReliability + [realDynamic];
        eloFixedReliability := eloFixedReliability + [realFixed];
        glicko2Reliability := glicko2Reliability + [realGlicko2];
        if currentCalc >= StopReliability {
          break;
        }
      }
    }
    totalVotes := total;
  }

  /**
    `simulate_and_plot(n, seed)`: the loop above with the curve of
    `calculate_reliability(n, total_votes)`.  The k-th calculated reliability
    is the curve at k votes, the run stops at the first vote taken at 96% or
    more, and that happens by 120 votes per item; the agreements are those of
    the three rankings after each vote of the trace.
   */
  method SimulateAndPlot(num: Numerics, n: nat)
    returns (votesData: seq<int>, calcReliabilityData: seq<real>, eloDynamicReliability: seq<real>,
             eloFixedReliability: seq<real>, glicko2Reliability: seq<real>, totalVotes: int,
             ghost medias: seq<int>, ghost trace: seq<seq<Media>>)
    requires num.Valid() && n >= 2
    ensures totalVotes > 0 && |votesData| == totalVotes && |calcReliabilityData| == totalVotes
    ensures |eloDynamicReliability| == totalVotes && |eloFixedReliability| == totalVotes
    ensures |glicko2Reliability| == totalVotes && totalVotes <= 120 * n + 1
    ensures forall k | 0 <= k < totalVotes :: votesData[k] == k + 1
    ensures forall k | 0 <= k < totalVotes :: calcReliabilityData[k] == CalculateReliability(num, n, k)
    ensures Percentages(eloDynamicReliability) && Percentages(eloFixedReliability)
    ensures Percentages(glicko2Reliability)
    ensures calcReliabilityData[totalVotes - 1] >= StopReliability
    ensures forall k | 0 <= k < totalVotes - 1 :: calcReliabilityData[k] < StopReliability
    ensures Traced(num, n, trace, calcReliabilityData)
    ensures Tracked(n, medias, trace, eloDynamicReliability, eloFixedReliability, glicko2Reliability)
  {
    var curve := Curve(num, n);
    BelowStop(num, n);
    votesData, calcReliabilityData, eloDynamicReliability, eloFixedReliability, glicko2Reliability, totalVotes,
      medias, trace := SimulateWith(num, n, curve);
  }
}
