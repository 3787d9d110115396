/**
  tests/test_reliability.py: a shuffled population is voted on with the Elo
  update of core/elo.py until the calculated reliability reaches 99%; every 10
  votes the list is re-sorted by Elo and both reliabilities are sampled.
 */
module ReliabilitySim {
  import opened Numerics
  import Elo
  import Sorting
  import Agreement
  import opened Reliability
  import opened Harness

  /** `media_a = a`, `media_b = b` is a vote the loop may take: `a` least voted, `b` any other item. */
  predicate Admissible(items: seq<Media>, n: nat, a: int, b: int)
    requires Population(items, n)
  {
    && 0 <= a < n && 0 <= b < n && a != b
    && forall i | 0 <= i < n :: items[a].voteCount <= items[i].voteCount
  }

  /**
    The population after the vote between `a` and `b`: the better item is
    rated as the winner of `Rating(winner.elo, loser.elo, WIN, LOST)` with the
    shipped K, both counters rise by one, and no other item changes.
   */
  function Vote(num: Numerics, items: seq<Media>, n: nat, a: int, b: int): (next: seq<Media>)
    requires num.Valid() && Population(items, n) && 0 <= a < n && 0 <= b < n && a != b
    ensures Population(next, n) && SumVotes(next) == SumVotes(items) + 2
    ensures var (winner, loser) := Decide(items, a, b);
            (next[winner].elo, next[loser].elo)
            == Elo.Create(num, items[winner].elo, items[loser].elo, Elo.Win, Elo.Lost).GetNewRatings()
    ensures next[a].voteCount == items[a].voteCount + 1 && next[b].voteCount == items[b].voteCount + 1
    ensures forall i | 0 <= i < n && i != a && i != b :: next[i] == items[i]
  {
    var (winner, loser) := Decide(items, a, b);
    var newRatings := Elo.Create(num, items[winner].elo, items[loser].elo, Elo.Win, Elo.Lost).GetNewRatings();
    var rated := items[winner := items[winner].(elo := newRatings.0)];
    RatingsKeepVotes(items, winner, rated[winner]);
    RatingsKeepVotes(rated, loser, rated[loser].(elo := newRatings.1));
    CountVote(rated[loser := rated[loser].(elo := newRatings.1)], a, b)
  }

  /**
    One iteration's vote: `media_a` least voted, `media_b` any other item, and
    the better item is rated as the winner of `Rating(winner.elo, loser.elo,
    WIN, LOST)` with the shipped K.
   */
  method CastVote(num: Numerics, items: seq<Media>, n: nat)
    returns (next: seq<Media>, a: int, b: int, winner: int, loser: int)
    requires num.Valid() && Population(items, n) && n >= 2
    ensures Population(next, n) && SumVotes(next) == SumVotes(items) + 2
    ensures 0 <= a < n && 0 <= b < n && a != b
    ensures forall i | 0 <= i < n :: items[a].voteCount <= items[i].voteCount
    ensures (winner, loser) == Decide(items, a, b)
    ensures (next[winner].elo, next[loser].elo)
         == Elo.Create(num, items[winner].elo, items[loser].elo, Elo.Win, Elo.Lost).GetNewRatings()
    ensures next[a].voteCount == items[a].voteCount + 1 && next[b].voteCount == items[b].voteCount + 1
    ensures forall i | 0 <= i < n && i != a && i != b :: next[i] == items[i]
    ensures Admissible(items, n, a, b) && next == Vote(num, items, n, a, b)
  {
    a := ChooseLeastVoted(items);
    b := ChooseOther(n, a);
    winner, loser := Decide(items, a, b).0, Decide(items, a, b).1;
    var rating := Elo.Create(num, items[winner].elo, items[loser].elo, Elo.Win, Elo.Lost);
    var newRatings := rating.GetNewRatings();
    next := items[winner := items[winner].(elo := newRatings.0)];
    RatingsKeepVotes(items, winner, next[winner]);
    RatingsKeepVotes(next, loser, next[loser].(elo := newRatings.1));
    next := next[loser := next[loser].(elo := newRatings.1)];
    next := CountVote(next, a, b);
  }

  /** One vote of the loop: a vote the loop may take, cast. */
  method Round(num: Numerics, items: seq<Media>, n: nat) returns (next: seq<Media>, a: int, b: int)
    requires num.Valid() && Population(items, n) && n >= 2
    ensures Population(next, n) && SumVotes(next) == SumVotes(items) + 2
    ensures Admissible(items, n, a, b) && next == Vote(num, items, n, a, b)
  {
    var winner, loser;
    next, a, b, winner, loser := CastVote(num, items, n);
  }

  /** `next` is the population after some vote the loop may take from `items`. */
  ghost predicate Step(num: Numerics, n: nat, items: seq<Media>, next: seq<Media>)
    requires num.Valid() && Population(items, n)
  {
    exists a, b | Admissible(items, n, a, b) :: next == Vote(num, items, n, a, b)
  }

  /** Vote j of the trace is a vote the loop may take. */
  ghost predicate SteppedAt(num: Numerics, n: nat, trace: seq<seq<Media>>, j: int)
    requires num.Valid() && 0 <= j < |trace| - 1
  {
    Population(trace[j], n) && Step(num, n, trace[j], trace[j + 1])
  }

  /**
    The ratings of the whole run: `trace[j]` is the population after j
    votes, starting from the fresh population, each one a vote after the last.
   */
  ghost predicate Traced(num: Numerics, n: nat, trace: seq<seq<Media>>)
    requires num.Valid()
  {
    && |trace| > 0 && trace[0] == Original(n)
    && forall j | 0 <= j < |trace| - 1 :: SteppedAt(num, n, trace, j)
  }

  /** One more vote extends the trace. */
  lemma TracedExtend(num: Numerics, n: nat, trace: seq<seq<Media>>, a: int, b: int, next: seq<Media>)
    requires num.Valid() && Traced(num, n, trace) && Population(trace[|trace| - 1], n)
    requires Admissible(trace[|trace| - 1], n, a, b) && next == Vote(num, trace[|trace| - 1], n, a, b)
    ensures Traced(num, n, trace + [next])
  {
    var trace' := trace + [next];
    forall j | 0 <= j < |trace'| - 1
      ensures SteppedAt(num, n, trace', j)
    {
      if j < |trace| - 1 {
        assert SteppedAt(num, n, trace, j);
        assert trace'[j] == trace[j] && trace'[j + 1] == trace[j + 1];
      } else {
        assert trace'[j] == trace[|trace| - 1] && trace'[j + 1] == next;
        assert Step(num, n, trace'[j], trace'[j + 1]);
      }
    }
  }

  /** One vote of the loop, entered in the trace; the samples keep the entries they were taken from. */
  method Advance(num: Numerics, items: seq<Media>, n: nat, ghost trace: seq<seq<Media>>,
                 ghost initial: seq<int>, ghost votesData: seq<int>, ghost realReliability: seq<real>,
                 ghost orders: seq<seq<int>>)
    returns (next: seq<Media>)
    requires num.Valid() && Population(items, n) && n >= 2
    requires Traced(num, n, trace) && trace[|trace| - 1] == items
    requires Recorded(n, initial, votesData, realReliability, orders, trace)
    ensures Population(next, n) && SumVotes(next) == SumVotes(items) + 2
    ensures Traced(num, n, trace + [next])
    ensures Recorded(n, initial, votesData, realReliability, orders, trace + [next])
  {
    var a, b;
    next, a, b := Round(num, items, n);
    TracedExtend(num, n, trace, a, b, next);
    RecordedGrow(n, initial, votesData, realReliability, orders, trace, next);
  }

  /** A sample below 99% is taken before 500 votes per item. */
  lemma BelowCeiling(num: Numerics, n: int)
    requires num.Valid() && n > 0
    ensures forall v | v >= 0 && Curve(num, n)(v) < 99.0 :: v < 500 * n
  {
    forall v | v >= 0 && Curve(num, n)(v) < 99.0
      ensures v < 500 * n
    {
      if v >= 500 * n {
        Reaches99(num, n, v);
      }
    }
  }

  /**
    Between two samples: after `count` samples and one more vote, the vote
    count is the next multiple of ten exactly when a sample is due.
   */
  lemma SampleStep(total: int, count: int)
    requires 10 * count < total <= 10 * count + 10
    ensures total % 10 == 0 ==> total == 10 * (count + 1)
    ensures total % 10 != 0 ==> total < 10 * count + 10
  {
  }

  /** 500 votes per item is a vote count at which a sample is taken. */
  lemma CeilingIsSampled(n: int)
    ensures (500 * n) % 10 == 0
  {
    assert 500 * n == 10 * (50 * n);
  }

  /** The order a sample re-sorts: the previous sample's, or the initial shuffle. */
  function LastOrder(initial: seq<int>, orders: seq<seq<int>>): seq<int> {
    if orders == [] then initial else orders[|orders| - 1]
  }

  /** The order sample `k` re-sorts. */
  function PreviousOrder(initial: seq<int>, orders: seq<seq<int>>, k: int): seq<int>
    requires 0 <= k <= |orders|
  {
    if k == 0 then initial else orders[k - 1]
  }

  /**
    A sample after `total` votes: `shuffled.sort(key=lambda x: -x.elo)` in
    place, and the agreement of the sorted list with the objective order.
   */
  method Sample(n: nat, total: int, shuffled: seq<int>, items: seq<Media>)
    returns (sorted: seq<int>, agreement: real)
    requires IsShuffle(shuffled, n) && Population(items, n) && SumVotes(items) == 2 * total
    ensures sorted == Sorting.SortDesc(shuffled, EloKey(items)) && IsShuffle(sorted, n)
    ensures forall k | 0 <= k < n :: Ids(n)[k] in sorted
    ensures agreement == ShuffleAgreement(n, sorted) == Agreement.RealReliability(Ids(n), sorted)
  {
    RankingIsShuffle(shuffled, n, EloKey(items));
    sorted := Sorting.SortDesc(shuffled, EloKey(items));
    agreement := Agreement.ComputeRealReliability(Ids(n), sorted);
  }

  /**
    Sample k was taken from the trace after `votesData[k]` votes: it
    re-sorted the order before it (the initial shuffle for the first),
    stably, by the Elo ratings there, and its real reliability is the
    agreement of that order.
   */
  ghost predicate SampledAt(n: nat, initial: seq<int>, votesData: seq<int>, realReliability: seq<real>,
                            orders: seq<seq<int>>, trace: seq<seq<Media>>, k: int)
    requires 0 <= k < |orders| && |votesData| == |orders| && |realReliability| == |orders|
  {
    && 0 <= votesData[k] < |trace|
    && IsShuffle(orders[k], n)
    && orders[k] == Sorting.SortDesc(PreviousOrder(initial, orders, k), EloKey(trace[votesData[k]]))
    && realReliability[k] == ShuffleAgreement(n, orders[k])
  }

  /** No sample reached 99%. */
  predicate Below(calcReliability: seq<real>) {
    forall k | 0 <= k < |calcReliability| :: calcReliability[k] < 99.0
  }

  /**
    The record of samples: every order is the one before it re-sorted by the
    ratings of the trace at its vote count, and every real reliability is the
    agreement of its order.
   */
  ghost predicate Recorded(n: nat, initial: seq<int>, votesData: seq<int>, realReliability: seq<real>,
                           orders: seq<seq<int>>, trace: seq<seq<Media>>)
  {
    && IsShuffle(initial, n)
    && |orders| == |votesData| && |realReliability| == |votesData|
    && (forall k | 0 <= k < |votesData| :: 0.0 <= realReliability[k] <= 100.0)
    && forall k | 0 <= k < |orders| :: SampledAt(n, initial, votesData, realReliability, orders, trace, k)
  }

  /** Growing the trace keeps every sample where it was taken. */
  lemma RecordedGrow(n: nat, initial: seq<int>, votesData: seq<int>, realReliability: seq<real>,
                     orders: seq<seq<int>>, trace: seq<seq<Media>>, next: seq<Media>)
    requires Recorded(n, initial, votesData, realReliability, orders, trace)
    ensures Recorded(n, initial, votesData, realReliability, orders, trace + [next])
  {
    var trace' := trace + [next];
    forall k | 0 <= k < |orders|
      ensures SampledAt(n, initial, votesData, realReliability, orders, trace', k)
    {
      assert SampledAt(n, initial, votesData, realReliability, orders, trace, k);
      assert trace'[votesData[k]] == trace[votesData[k]];
    }
  }

  /** A sample that re-sorts the last order by the last entry of the trace extends the record. */
  lemma RecordedExtend(n: nat, initial: seq<int>, votesData: seq<int>, realReliability: seq<real>,
                       orders: seq<seq<int>>, trace: seq<seq<Media>>,
                       total: int, sorted: seq<int>, agreement: real)
    requires Recorded(n, initial, votesData, realReliability, orders, trace) && 0 <= total < |trace|
    requires sorted == Sorting.SortDesc(LastOrder(initial, orders), EloKey(trace[total])) && IsShuffle(sorted, n)
    requires agreement == ShuffleAgreement(n, sorted)
    ensures Recorded(n, initial, votesData + [total], realReliability + [agreement], orders + [sorted], trace)
  {
    var votesData', orders', realReliability' := votesData + [total], orders + [sorted], realReliability + [agreement];
    forall k | 0 <= k < |orders'|
      ensures SampledAt(n, initial, votesData', realReliability', orders', trace, k)
    {
      if k < |orders| {
        assert SampledAt(n, initial, votesData, realReliability, orders, trace, k);
        assert orders'[k] == orders[k] && votesData'[k] == votesData[k] && realReliability'[k] == realReliability[k];
        assert PreviousOrder(initial, orders', k) == PreviousOrder(initial, orders, k);
      } else {
        assert orders'[k] == sorted && votesData'[k] == total && realReliability'[k] == agreement;
        assert PreviousOrder(initial, orders', k) == LastOrder(initial, orders);
      }
    }
  }

  /** A sample of the population after `total` votes, entered in the record. */
  method RecordSample(n: nat, total: int, shuffled: seq<int>, items: seq<Media>,
                      ghost initial: seq<int>, votesData: seq<int>, realReliability: seq<real>,
                      ghost orders: seq<seq<int>>, ghost trace: seq<seq<Media>>)
    returns (sorted: seq<int>, agreement: real)
    requires Recorded(n, initial, votesData, realReliability, orders, trace)
    requires shuffled == LastOrder(initial, orders) && IsShuffle(shuffled, n)
    requires Population(items, n) && SumVotes(items) == 2 * total
    requires 0 <= total < |trace| && trace[total] == items
    ensures IsShuffle(sorted, n) && sorted == LastOrder(initial, orders + [sorted])
    ensures Recorded(n, initial, votesData + [total], realReliability + [agreement], orders + [sorted], trace)
  {
    sorted, agreement := Sample(n, total, shuffled, items);
    RecordedExtend(n, initial, votesData, realReliability, orders, trace, total, sorted, agreement);
  }

  /**
    The sample due at `total` votes: the list is re-sorted and its agreement
    and the curve there are appended to the logs.
   */
  method TakeSample(n: nat, curve: int --> real, total: int, shuffled: seq<int>, items: seq<Media>,
                    ghost initial: seq<int>, votesData: seq<int>, realReliability: seq<real>,
                    calcReliability: seq<real>, ghost orders: seq<seq<int>>, ghost trace: seq<seq<Media>>)
    returns (shuffled': seq<int>, votesData': seq<int>, realReliability': seq<real>, calcReliability': seq<real>,
             ghost orders': seq<seq<int>>, calculated: real)
    requires forall v | v >= 0 :: curve.requires(v)
    requires Recorded(n, initial, votesData, realReliability, orders, trace)
    requires shuffled == LastOrder(initial, orders) && IsShuffle(shuffled, n)
    requires Population(items, n) && SumVotes(items) == 2 * total
    requires 0 <= total < |trace| && trace[total] == items
    requires Scheduled(curve, votesData, calcReliability) && total == 10 * (|votesData| + 1)
    ensures IsShuffle(shuffled', n) && shuffled' == LastOrder(initial, orders')
    ensures votesData' == votesData + [total] && calculated == curve(total)
    ensures calcReliability' == calcReliability + [calculated] && |realReliability'| == |votesData'|
    ensures Recorded(n, initial, votesData', realReliability', orders', trace)
    ensures Scheduled(curve, votesData', calcReliability')
  {
    var agreement;
    shuffled', agreement := RecordSample(n, total, shuffled, items, initial, votesData, realReliability, orders,
                                         trace);
    orders' := orders + [shuffled'];
    calculated := curve(total);
    ScheduledExtend(curve, votesData, calcReliability);
    votesData' := votesData + [total];
    realReliability' := realReliability + [agreement];
    calcReliability' := calcReliability + [calculated];
  }

  /** Sample k is taken at 10 (k + 1) votes and records the curve there. */
  predicate Scheduled(curve: int --> real, votesData: seq<int>, calcReliability: seq<real>)
    requires forall v | v >= 0 :: curve.requires(v)
  {
    && |calcReliability| == |votesData|
    && forall k | 0 <= k < |votesData| :: votesData[k] == 10 * (k + 1) && calcReliability[k] == curve(votesData[k])
  }

  /** The next sample, at the next multiple of ten, keeps the schedule. */
  lemma ScheduledExtend(curve: int --> real, votesData: seq<int>, calcReliability: seq<real>)
    requires forall v | v >= 0 :: curve.requires(v)
    requires Scheduled(curve, votesData, calcReliability)
    ensures Scheduled(curve, votesData + [10 * (|votesData| + 1)],
                      calcReliability + [curve(10 * (|votesData| + 1))])
  {
  }

  /**
    With two items the better one wins every vote: along the trace item 0 is
    never rated below item 1, and after the first vote it is rated above.
   */
  lemma {:induction false} TwoItemsLeader(num: Numerics, trace: seq<seq<Media>>, j: int)
    requires num.Valid() && Traced(num, 2, trace) && 0 <= j < |trace|
    ensures Population(trace[j], 2) && trace[j][0].elo >= trace[j][1].elo
    ensures j > 0 ==> trace[j][0].elo > trace[j][1].elo
    decreases j
  {
    if j > 0 {
      TwoItemsLeader(num, trace, j - 1);
      assert SteppedAt(num, 2, trace, j - 1);
      var items := trace[j - 1];
      var a, b :| Admissible(items, 2, a, b) && trace[j] == Vote(num, items, 2, a, b);
      DecideStrict(items, 2, a, b);
      assert Decide(items, a, b) == (0, 1);
      Elo.WinnerGainsLoserLoses(num, items[0].elo, items[1].elo, Elo.KFactor);
    }
  }

  /**
    With two items every sample agrees fully with the objective order, in
    whatever order the shuffle left them.
   */
  lemma TwoItemsAgreeFully(num: Numerics, initial: seq<int>, votesData: seq<int>, realReliability: seq<real>,
                           orders: seq<seq<int>>, trace: seq<seq<Media>>)
    requires num.Valid() && Traced(num, 2, trace) && Recorded(2, initial, votesData, realReliability, orders, trace)
    requires forall k | 0 <= k < |votesData| :: votesData[k] > 0
    ensures forall k | 0 <= k < |realReliability| :: realReliability[k] == 100.0
  {
    forall k | 0 <= k < |realReliability|
      ensures realReliability[k] == 100.0
    {
      assert SampledAt(2, initial, votesData, realReliability, orders, trace, k);
      if k > 0 {
        assert SampledAt(2, initial, votesData, realReliability, orders, trace, k - 1);
      }
      TwoItemsLeader(num, trace, votesData[k]);
      TwoItemsRankedInOrder(PreviousOrder(initial, orders, k), EloKey(trace[votesData[k]]));
    }
  }

  /**
    The state of the loop after `total` votes: `items` is the last entry of
    the trace, `shuffled` the last sampled order, and the samples so far are
    recorded and scheduled.
   */
  ghost predicate Sampling(num: Numerics, n: nat, curve: int --> real, items: seq<Media>, shuffled: seq<int>,
                           total: int, votesData: seq<int>, realReliability: seq<real>,
                           calcReliability: seq<real>, initial: seq<int>, orders: seq<seq<int>>,
                           trace: seq<seq<Media>>)
    requires num.Valid() && forall v | v >= 0 :: curve.requires(v)
  {
    && Population(items, n) && SumVotes(items) == 2 * total && IsShuffle(shuffled, n)
    && 0 <= total && 10 * |votesData| <= total < 10 * |votesData| + 10
    && |realReliability| == |votesData| && |calcReliability| == |votesData|
    && Recorded(n, initial, votesData, realReliability, orders, trace)
    && shuffled == LastOrder(initial, orders)
    && Scheduled(curve, votesData, calcReliability)
    && |trace| == total + 1 && trace[total] == items
    && Traced(num, n, trace)
  }

  /**
    One pass of the loop: a vote, then the sample when the vote count is a
    multiple of ten.
   */
  method Iterate(num: Numerics, n: nat, curve: int --> real, items: seq<Media>, shuffled: seq<int>, total: int,
                 votesData: seq<int>, realReliability: seq<real>, calcReliability: seq<real>,
                 ghost initial: seq<int>, ghost orders: seq<seq<int>>, ghost trace: seq<seq<Media>>)
    returns (items': seq<Media>, shuffled': seq<int>, total': int, votesData': seq<int>,
             realReliability': seq<real>, calcReliability': seq<real>, ghost orders': seq<seq<int>>,
             ghost trace': seq<seq<Media>>, sampled: bool)
    requires num.Valid() && n >= 2 && forall v | v >= 0 :: curve.requires(v)
    requires Sampling(num, n, curve, items, shuffled, total, votesData, realReliability, calcReliability,
                      initial, orders, trace)
    ensures Sampling(num, n, curve, items', shuffled', total', votesData', realReliability', calcReliability',
                     initial, orders', trace')
    ensures total' == total + 1
    ensures sampled <==> total' % 10 == 0
    ensures sampled ==> calcReliability' == calcReliability + [curve(total')]
    ensures !sampled ==> calcReliability' == calcReliability
  {
    items' := Advance(num, items, n, trace, initial, votesData, realReliability, orders);
    trace' := trace + [items'];
    total' := total + 1;
    SampleStep(total', |votesData|);
    sampled := total' % 10 == 0;
    if sampled {
      var calculated;
      shuffled', votesData', realReliability', calcReliability', orders', calculated
        := TakeSample(n, curve, total', shuffled, items', initial, votesData, realReliability, calcReliability,
                      orders, trace');
    } else {
      shuffled', votesData', realReliability', calcReliability', orders'
        := shuffled, votesData, realReliability, calcReliability, orders;
    }
  }

  /**
    The loop of `simulate_and_plot(n)` with the calculated reliability after
    `v` votes supplied as `curve(v)`: the samples are taken at 10, 20, 30, ...
    votes; the calculated reliability is the curve at the sample's vote count;
    the real reliability is the agreement of the list as re-sorted by Elo at
    that sample (`orders[k]`, the previous order sorted again in place, the
    first one sorted from the `initial` shuffle, by the ratings
    `trace[votesData[k]]` after that many votes); and the run stops at the
    first sample whose calculated reliability is at least 99.  `trace` is the
    population after each vote: it starts fresh and every entry is a vote the
    loop may take from the one before.  The run is finite when the curve
    reaches 99% by 500 votes per item.
   */
  method SimulateWith(num: Numerics, n: nat, curve: int --> real)
    returns (votesData: seq<int>, realReliability: seq<real>, calcReliability: seq<real>, totalVotes: int,
             ghost initial: seq<int>, ghost orders: seq<seq<int>>, ghost trace: seq<seq<Media>>)
    requires num.Valid() && n >= 2
    requires forall v | v >= 0 :: curve.requires(v)
    requires forall v | v >= 0 && curve(v) < 99.0 :: v < 500 * n
    ensures |votesData| > 0 && |realReliability| == |votesData| && |calcReliability| == |votesData|
    ensures forall k | 0 <= k < |votesData| :: votesData[k] == 10 * (k + 1)
    ensures totalVotes == votesData[|votesData| - 1] <= 500 * n
    ensures forall k | 0 <= k < |votesData| ::
              calcReliability[k] == curve(votesData[k]) && 0.0 <= realReliability[k] <= 100.0
    ensures calcReliability[|votesData| - 1] >= 99.0
    ensures forall k | 0 <= k < |votesData| - 1 :: calcReliability[k] < 99.0
    ensures Traced(num, n, trace) && |trace| == totalVotes + 1
    ensures Recorded(n, initial, votesData, realReliability, orders, trace)
  {
    var items := Original(n);
    assert IsShuffle(Ids(n), n);
    var shuffled :| IsShuffle(shuffled, n);
    initial := shuffled;
    orders, trace := [], [items];
    votesData, realReliability, calcReliability := [], [], [];
    var total := 0;
    ghost var ceiling := 500 * n;
    CeilingIsSampled(n);
    while true
      invariant Sampling(num, n, curve, items, shuffled, total, votesData, realReliability, calcReliability,
                         initial, orders, trace)
      invariant total < ceiling && Below(calcReliability)
      decreases ceiling - total
    {
      var sampled;
      items, shuffled, total, votesData, realReliability, calcReliability, orders, trace, sampled
        := Iterate(num, n, curve, items, shuffled, total, votesData, realReliability, calcReliability,
                   initial, orders, trace);
      if sampled {
        if calcReliability[|calcReliability| - 1] >= 99.0 {
          break;
        }
        assert total < ceiling;
      } else {
        assert total < ceiling by {
          assert total != ceiling;
        }
      }
    }
    totalVotes := total;
  }

  /**
    `simulate_and_plot(n)`: the loop above with the curve of
    `calculate_reliability(n, total_votes)`.  The run stops by 500 votes per
    item, at the first sample at 99% or more; each real reliability is the
    agreement of the list as re-sorted by Elo at that sample.
   */
  method SimulateAndPlot(num: Numerics, n: nat)
    returns (votesData: seq<int>, realReliability: seq<real>, calcReliability: seq<real>, totalVotes: int,
             ghost initial: seq<int>, ghost orders: seq<seq<int>>, ghost trace: seq<seq<Media>>)
    requires num.Valid() && n >= 2
    ensures |votesData| > 0 && |realReliability| == |votesData| && |calcReliability| == |votesData|
    ensures forall k | 0 <= k < |votesData| :: votesData[k] == 10 * (k + 1)
    ensures totalVotes == votesData[|votesData| - 1] <= 500 * n
    ensures forall k | 0 <= k < |votesData| ::
              calcReliability[k] == CalculateReliability(num, n, votesData[k])
              && 0.0 <= realReliability[k] <= 100.0
    ensures calcReliability[|votesData| - 1] >= 99.0
    ensures forall k | 0 <= k < |votesData| - 1 :: calcReliability[k] < 99.0
    ensures Traced(num, n, trace) && |trace| == totalVotes + 1
    ensures Recorded(n, initial, votesData, realReliability, orders, trace)
  {
    var curve := Curve(num, n);
    BelowCeiling(num, n);
    votesData, realReliability, calcReliability, totalVotes, initial, orders, trace
      := SimulateWith(num, n, curve);
  }
}
