/**
  tests/test_votes_needed.py: how many votes a shuffled population needs before
  the ranking by Elo agrees with the objective order to a given percentage.
  The Elo update is written inline there with K = 32.
 */
module VotesNeeded {
  import opened Numerics
  import Elo
  import Sorting
  import Agreement
  import opened Harness

  const InlineK: real := 32.0

  /**
    The inline update: the winner gains `32 * (1 - E)` and the loser gives up
    exactly as much, so the pair's total is unchanged; the gain is strictly
    between 0 and 32, and 16 between equals.
   */
  function InlineUpdate(num: Numerics, winnerElo: real, loserElo: real): (r: (real, real))
    requires num.Valid()
    ensures r.0 + r.1 == winnerElo + loserElo
    ensures winnerElo < r.0 < winnerElo + InlineK
    ensures winnerElo == loserElo ==> r.0 == winnerElo + 16.0
  {
    var expectedA := Elo.Expected(num, winnerElo, loserElo);
    Elo.ExpectedBelowHalf(num, winnerElo, loserElo);
    (winnerElo + InlineK * (1.0 - expectedA), loserElo + InlineK * (0.0 - (1.0 - expectedA)))
  }

  /** The inline update is the update of core/elo.py for a win with K = 32. */
  lemma InlineIsElo(num: Numerics, winnerElo: real, loserElo: real)
    requires num.Valid()
    ensures InlineUpdate(num, winnerElo, loserElo)
         == Elo.Create(num, winnerElo, loserElo, Elo.Win, Elo.Lost, InlineK).GetNewRatings()
  {
    Elo.ExpectedComplement(num, winnerElo, loserElo);
  }

  /**
    One iteration's vote: `media_a` least voted, `media_b` any other item, the
    better item wins and gains what the other loses, and both counters rise.
   */
  method CastVote(num: Numerics, items: seq<Media>, n: nat)
    returns (next: seq<Media>, a: int, b: int, winner: int, loser: int)
    requires num.Valid() && Population(items, n) && n >= 2
    ensures Population(next, n) && SumVotes(next) == SumVotes(items) + 2
    ensures 0 <= a < n && 0 <= b < n && a != b
    ensures forall i | 0 <= i < n :: items[a].voteCount <= items[i].voteCount
    ensures (winner, loser) == Decide(items, a, b)
    ensures (next[winner].elo, next[loser].elo) == InlineUpdate(num, items[winner].elo, items[loser].elo)
    ensures next[winner].elo + next[loser].elo == items[winner].elo + items[loser].elo
    ensures items[winner].elo < next[winner].elo < items[winner].elo + InlineK
    ensures next[a].voteCount == items[a].voteCount + 1 && next[b].voteCount == items[b].voteCount + 1
    ensures forall i | 0 <= i < n && i != a && i != b :: next[i] == items[i]
  {
    a := ChooseLeastVoted(items);
    b := ChooseOther(n, a);
    winner, loser := Decide(items, a, b).0, Decide(items, a, b).1;
    var (winnerElo, loserElo) := InlineUpdate(num, items[winner].elo, items[loser].elo);
    next := items[winner := items[winner].(elo := winnerElo)];
    RatingsKeepVotes(items, winner, next[winner]);
    RatingsKeepVotes(next, loser, next[loser].(elo := loserElo));
    next := next[loser := next[loser].(elo := loserElo)];
    next := CountVote(next, a, b);
  }

  /**
    `simulate_until_threshold(n, threshold, max_votes)`: the first multiple of
    50 votes at which the Elo ranking reaches `threshold`, or `max_votes`.
    With votes to cast, at least two items are needed: `min` of an empty list
    and `random.choice` of an empty list raise.
   */
  method SimulateUntilThreshold(num: Numerics, n: nat, threshold: real, maxVotes: int := 100000)
    returns (result: int)
    requires num.Valid()
    requires maxVotes > 0 ==> n >= 2
    ensures result == maxVotes || (0 < result < maxVotes && result % 50 == 0)
  {
    var original := Ids(n);
    var items := Original(n);
    assert IsShuffle(Ids(n), n);
    var medias :| IsShuffle(medias, n);
    var total := 0;
    while total < maxVotes
      invariant 0 <= total && (total == 0 || total <= maxVotes)
      invariant Population(items, n) && SumVotes(items) == 2 * total
      decreases maxVotes - total
    {
      var a, b, winner, loser;
      items, a, b, winner, loser := CastVote(num, items, n);
      total := total + 1;
      if total % 50 == 0 {
        var sortedMedias := Sorting.SortDesc(medias, EloKey(items));
        RankingIsShuffle(medias, n, EloKey(items));
        var realReliability := Agreement.ComputeRealReliability(original, sortedMedias);
        if realReliability >= threshold {
          return total;
        }
      }
    }
    return maxVotes;
  }
}
