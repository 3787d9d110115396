/**
  The pieces the three simulation harnesses under tests/ share: the simulated
  media items, least-voted-first selection, the choice of an opponent, the
  decision of a vote by objective score, and the vote counters.

  A Python `Media` object is identified by its `id`: the population is a
  sequence indexed by id, and every list of objects the harnesses hold
  (`original`, the shuffled `medias`, a sorted ranking) is a sequence of ids.
  `random.choice` is a nondeterministic choice among the elements the
  comprehension would keep.
 */
module Harness {
  import Glicko2
  import Sorting
  import Agreement

  /**
    A simulated item.  tests/test_glicko2.py carries all four ratings;
    tests/test_reliability.py and tests/test_votes_needed.py only use `elo`
    and leave the other two at their initial values.
   */
  datatype Media = Media(id: int, objectiveScore: int, elo: real, eloFixed: real,
                         glicko2: Glicko2.Rating, voteCount: int)

  const InitialElo: real := 1000.0
  const InitialGlicko2: Glicko2.Rating := Glicko2.Rating(1500.0, 350.0, 0.06)

  /** `Media(media_id, objective_score)`: a fresh item with no votes. */
  function NewMedia(id: int, objectiveScore: int): (m: Media)
    ensures m.id == id && m.objectiveScore == objectiveScore && m.voteCount == 0
    ensures m.elo == InitialElo && m.eloFixed == InitialElo && m.glicko2 == InitialGlicko2
  {
    Media(id, objectiveScore, InitialElo, InitialElo, InitialGlicko2, 0)
  }

  /** Item `i` has id `i` and objective score `n - i`: the best item comes first. */
  predicate Population(items: seq<Media>, n: int) {
    && |items| == n
    && forall i | 0 <= i < n :: items[i].id == i && items[i].objectiveScore == n - i
  }

  /** `[Media(i, n - i) for i in range(n)]`. */
  function Original(n: nat): (items: seq<Media>)
    ensures Population(items, n) && SumVotes(items) == 0
    ensures forall i | 0 <= i < n :: items[i] == NewMedia(i, n - i)
  {
    if n == 0 then []
    else
      var items := seq(n, i => NewMedia(i, n - i));
      assert forall i | 0 <= i < n :: items[i] == NewMedia(i, n - i);
      SumOfFresh(items);
      items
  }

  /** The ids `0 .. n-1` in order: the list `original` of the harnesses. */
  function Ids(n: nat): (ids: seq<int>)
    ensures |ids| == n && forall k | 0 <= k < n :: ids[k] == k
  {
    if n == 0 then [] else Ids(n - 1) + [n - 1]
  }

  /** `order` is some rearrangement of the ids: the result of `random.shuffle`. */
  predicate IsShuffle(order: seq<int>, n: nat) {
    multiset(order) == multiset(Ids(n))
  }

  /** A rearrangement of the ids holds every id and nothing else. */
  lemma ShuffleMembers(order: seq<int>, n: nat)
    requires IsShuffle(order, n)
    ensures forall x :: x in order <==> 0 <= x < n
  {
    forall x
      ensures x in order <==> 0 <= x < n
    {
      assert x in order <==> x in multiset(order);
      assert x in Ids(n) <==> x in multiset(Ids(n));
      if 0 <= x < n {
        assert Ids(n)[x] == x;
      }
    }
  }

  /** The total of all vote counters. */
  function SumVotes(items: seq<Media>): int {
    if items == [] then 0 else SumVotes(items[..|items| - 1]) + items[|items| - 1].voteCount
  }

  lemma {:induction false} SumOfFresh(items: seq<Media>)
    requires forall i | 0 <= i < |items| :: items[i].voteCount == 0
    ensures SumVotes(items) == 0
  {
    if items != [] {
      SumOfFresh(items[..|items| - 1]);
    }
  }

  /** Replacing one item changes the total by the change in its counter. */
  lemma {:induction false} SumVotesUpdate(items: seq<Media>, i: int, m: Media)
    requires 0 <= i < |items|
    ensures SumVotes(items[i := m]) == SumVotes(items) - items[i].voteCount + m.voteCount
    decreases |items|
  {
    var last := |items| - 1;
    assert items[i := m][..last] == if i == last then items[..last] else items[..last][i := m];
    if i < last {
      SumVotesUpdate(items[..last], i, m);
    }
  }

  /** `min(m.vote_count for m in medias)`: the least counter, attained by some item. */
  function MinVoteCount(items: seq<Media>): (least: int)
    requires items != []
    ensures exists i | 0 <= i < |items| :: items[i].voteCount == least
    ensures forall i | 0 <= i < |items| :: least <= items[i].voteCount
  {
    if |items| == 1 then items[0].voteCount
    else
      var rest := MinVoteCount(items[..|items| - 1]);
      var last := items[|items| - 1].voteCount;
      if last < rest then last else rest
  }

  /**
    `media_a = random.choice(candidates)` where the candidates are the items
    with the fewest votes: some item whose counter is minimal.
   */
  method ChooseLeastVoted(items: seq<Media>) returns (a: int)
    requires items != []
    ensures 0 <= a < |items|
    ensures forall i | 0 <= i < |items| :: items[a].voteCount <= items[i].voteCount
  {
    var minVotes := MinVoteCount(items);
    a :| 0 <= a < |items| && items[a].voteCount == minVotes;
  }

  /** `random.choice([m for m in medias if m != media_a])`: any other item. */
  method ChooseOther(n: int, a: int) returns (b: int)
    requires n >= 2 && 0 <= a < n
    ensures 0 <= b < n && b != a
  {
    var other := if a == 0 then 1 else 0;
    assert 0 <= other < n && other != a;
    b :| 0 <= b < n && b != a;
  }

  /** Item `m` is within 100 points of dynamic Elo of item `a`. */
  predicate Close(items: seq<Media>, m: int, a: int)
    requires 0 <= m < |items| && 0 <= a < |items|
  {
    Glicko2.Abs(items[m].elo - items[a].elo) <= 100.0
  }

  /**
    The opponent choice of tests/test_glicko2.py: once the calculated
    reliability reaches 85, an item within 100 Elo points of `media_a` if there
    is one; otherwise, and below 85, any other item.
   */
  method ChooseOpponent(items: seq<Media>, a: int, currentCalc: real) returns (b: int)
    requires |items| >= 2 && 0 <= a < |items|
    ensures 0 <= b < |items| && b != a
    ensures currentCalc >= 85.0 && (exists m | 0 <= m < |items| :: m != a && Close(items, m, a))
            ==> Close(items, b, a)
  {
    if currentCalc >= 85.0 {
      if exists m | 0 <= m < |items| :: m != a && Close(items, m, a) {
        b :| 0 <= b < |items| && b != a && Close(items, b, a);
      } else {
        b := ChooseOther(|items|, a);
      }
    } else {
      b := ChooseOther(|items|, a);
    }
  }

  /**
    `winner, loser`: `media_a` wins when its objective score is higher,
    otherwise `media_b` does, so the winner never has the lower score.
   */
  function Decide(items: seq<Media>, a: int, b: int): (r: (int, int))
    requires 0 <= a < |items| && 0 <= b < |items|
    ensures r == (a, b) || r == (b, a)
    ensures items[r.0].objectiveScore >= items[r.1].objectiveScore
  {
    if items[a].objectiveScore > items[b].objectiveScore then (a, b) else (b, a)
  }

  /** Two different items of a population never tie: the winner is strictly better. */
  lemma DecideStrict(items: seq<Media>, n: int, a: int, b: int)
    requires Population(items, n) && 0 <= a < n && 0 <= b < n && a != b
    ensures var r := Decide(items, a, b);
            items[r.0].objectiveScore > items[r.1].objectiveScore && r.0 < r.1
  {
  }

  /**
    `media_a.vote_count += 1; media_b.vote_count += 1`: both counters rise by
    one, nothing else changes, and the total rises by two.
   */
  function CountVote(items: seq<Media>, a: int, b: int): (r: seq<Media>)
    requires 0 <= a < |items| && 0 <= b < |items| && a != b
    ensures |r| == |items| && SumVotes(r) == SumVotes(items) + 2
    ensures r[a] == items[a].(voteCount := items[a].voteCount + 1)
    ensures r[b] == items[b].(voteCount := items[b].voteCount + 1)
    ensures forall i | 0 <= i < |items| && i != a && i != b :: r[i] == items[i]
  {
    var once := items[a := items[a].(voteCount := items[a].voteCount + 1)];
    SumVotesUpdate(items, a, once[a]);
    SumVotesUpdate(once, b, once[b].(voteCount := once[b].voteCount + 1));
    once[b := once[b].(voteCount := once[b].voteCount + 1)]
  }

  /** Writing new ratings into an item leaves the vote total alone. */
  lemma RatingsKeepVotes(items: seq<Media>, i: int, m: Media)
    requires 0 <= i < |items| && m.voteCount == items[i].voteCount
    ensures SumVotes(items[i := m]) == SumVotes(items)
  {
    SumVotesUpdate(items, i, m);
  }

  /** Sort keys: `-m.elo`, `-m.elo_fixed` and `-m.glicko2["mu"]` ascending are these descending. */
  function EloKey(items: seq<Media>): int -> real {
    i => if 0 <= i < |items| then items[i].elo else 0.0
  }

  function EloFixedKey(items: seq<Media>): int -> real {
    i => if 0 <= i < |items| then items[i].eloFixed else 0.0
  }

  function MuKey(items: seq<Media>): int -> real {
    i => if 0 <= i < |items| then items[i].glicko2.mu else 0.0
  }

  /** Ranking a rearrangement of the ids gives a rearrangement of the ids. */
  lemma RankingIsShuffle(order: seq<int>, n: nat, key: int -> real)
    requires IsShuffle(order, n)
    ensures IsShuffle(Sorting.SortDesc(order, key), n)
    ensures forall k | 0 <= k < n :: Ids(n)[k] in Sorting.SortDesc(order, key)
  {
    Sorting.SortDescPermutes(order, key);
    ShuffleMembers(Sorting.SortDesc(order, key), n);
  }

  /**
    `compute_real_reliability(original, order)` for a rearrangement `order` of
    the ids: the percentage of pairs of the objective order that it keeps.
   */
  function ShuffleAgreement(n: nat, order: seq<int>): (r: real)
    requires IsShuffle(order, n)
    ensures 0.0 <= r <= 100.0
    ensures n < 2 ==> r == 0.0
    ensures order == Ids(n) && n >= 2 ==> r == 100.0
  {
    ShuffleMembers(order, n);
    assert n >= 2 ==> Agreement.RealReliability(Ids(n), Ids(n)) == 100.0 by {
      if n >= 2 {
        Agreement.IdenticalOrder(Ids(n));
      }
    }
    Agreement.RealReliability(Ids(n), order)
  }

  /**
    The agreement of `sorted(order, key=...)`, highest key first, with the
    objective order.
   */
  function RankAgreement(n: nat, order: seq<int>, key: int -> real): (r: real)
    requires IsShuffle(order, n)
    ensures 0.0 <= r <= 100.0
  {
    RankingIsShuffle(order, n, key);
    ShuffleAgreement(n, Sorting.SortDesc(order, key))
  }

  /** The two rearrangements of two ids. */
  lemma TwoShuffles(order: seq<int>)
    requires IsShuffle(order, 2)
    ensures order == [0, 1] || order == [1, 0]
  {
    ShuffleMembers(order, 2);
    assert Ids(2) == [0, 1];
    assert |order| == |multiset(order)| == 2;
    assert order == [order[0], order[1]];
    assert multiset(order) == multiset{0, 1};
    assert multiset(order)[order[0]] == 1;
  }

  /**
    Two items ranked by a key that puts id 0 strictly first: whatever the
    order they start in, the ranking agrees fully with the objective order.
   */
  lemma TwoItemsRankedInOrder(order: seq<int>, key: int -> real)
    requires IsShuffle(order, 2) && key(0) > key(1)
    ensures RankAgreement(2, order, key) == 100.0
  {
    RankingIsShuffle(order, 2, key);
    var sorted := Sorting.SortDesc(order, key);
    Sorting.SortDescDescending(order, key);
    TwoShuffles(sorted);
    assert key(sorted[0]) >= key(sorted[1]);
    assert sorted == Ids(2);
  }
}
