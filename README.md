# Kura rating and reliability engine in Dafny

Kura ranks images by pairwise votes. This project models the engine's core:

- **Elo** (`core/elo.py`): the expected score `1 / (1 + 10^((r_opp - r)/400))` and the
  update `r + K (S - E)` with `K = 16`. The `Rating` object only stores its results, so it
  is a datatype value built by `Elo.Create`.
- **Glicko-2** (`core/glicko2.py`): the scale conversions, `reduce_impact`, one rating
  period `_rate` (a loop over the games), `rate_1vs1`, and the `Glicko2Rating` front end.
  The volatility step of the source is a stub that returns sigma unchanged, and so is the
  model's.
- **Reliability** (`core/reliability_calculator.py`): the closed-form curve
  `calculate_reliability(n, v)` and the binary search `calculate_required_votes`.
- **Database** (`db/database.py`): the `images` table (a map from id to row), the `votes`
  ledger (a sequence in timestamp order), and their operations. These are adding an image,
  replaying the ledger, deleting an image, recording a vote, choosing a pair, and reading a
  page of the ranking.
- **Simulation harnesses** (`tests/test_glicko2.py`, `tests/test_reliability.py`,
  `tests/test_votes_needed.py`): the shared metric `compute_real_reliability`, the
  least-voted-first vote selection, the vote decision by objective score, and each
  harness's main loop.

`10 ** x`, `math.exp` and `math.sqrt` have no formula in Dafny. A `Numerics` value carries
them, and its `Valid()` lists laws the true functions obey: positivity, `f(x) f(-x) = 1`,
strict monotonicity, `exp(x) >= 1 + x`, and `sqrt` as the non-negative root. Every result
proved here holds for the real functions. Python floats are modelled as exact reals.
`random.choice` and `random.shuffle` are nondeterministic choices (`:|`), so each harness
result holds for every random outcome.

Module layout:

- `numerics.dfy`, `elo.dfy`, `glicko2.dfy` and `reliability.dfy` model the rating core.
- `sorting.dfy` holds the stable descending sort that stands for Python's `sorted` and
  `list.sort`.
- `agreement.dfy` holds `compute_real_reliability`.
- `harness.dfy` holds the pieces the three harnesses share.
- `sim_glicko2.dfy`, `sim_reliability.dfy` and `sim_votes_needed.dfy` hold the harness loops.
- `database.dfy` models the database.

## Model

| member | source | states |
|---|---|---|
| Elo.Expected | core/elo.py:80-81 | an expected score lies strictly between 0 and 1 |
| Elo.ExpectedScores | core/elo.py:69-86 | both expectations lie in (0, 1) and add up to 1; equal ratings give 1/2; A expects less than B exactly when A is rated lower |
| Elo.ExpectedComplement | core/elo.py:80-81 | the two players' expected scores add up to 1 |
| Elo.ExpectedBelowHalf | core/elo.py:80 | A's expectation is below 1/2 exactly when A is rated below B, and 1/2 at equal ratings |
| Elo.Create | core/elo.py:14-39 | the object keeps its inputs; the expectation is in (0, 1); the sum of the two ratings changes by `K (score_a + score_b - 1)`; the stored results are those `_get_new_ratings` computes from the stored inputs |
| Elo.NewRatings | core/elo.py:88-111 | the two ratings together move by K times the total surprise `(score_a + score_b) - (expected_a + expected_b)` |
| Elo.NewRatingsDirection | core/elo.py:105-106 | with a positive K, a rating rises exactly when its score beats its expectation, and stays exactly when they are equal |
| Elo.Rating.GetNewRatings | core/elo.py:57-67 | of a constructed object: the ratings' sum changes by `K (score_a + score_b - 1)`, and with a positive K each rating rises exactly when its player scored above expectation |
| Elo.SetNewSettings | core/elo.py:41-55 | re-running the constructor forgets the previous object; the new ratings are the Elo update of the new inputs with K = 16 |
| Elo.ZeroSum | core/elo.py:105-106 | when the scores add up to 1, the update is zero-sum for every K |
| Elo.WinnerGainsLoserLoses | core/elo.py:105-106 | after a win, the winner gains and the loser loses, each by strictly less than K |
| Elo.EqualRatingsSplitEvenly | core/elo.py:8-12 | a win between equal ratings moves them by +8 and -8 |
| Elo.UpsetAmplification | core/elo.py:80-106 | the lower-rated player gains more for a win than the higher-rated one would |
| Reliability.GainBounds | core/reliability_calculator.py:36-42 | each exponential component lies in [0, weight) and is 0 at no votes |
| Reliability.GainMonotone | core/reliability_calculator.py:36-42 | each component is non-decreasing in votes per item |
| Reliability.CalculateReliability | core/reliability_calculator.py:17-47 | 0 for `n <= 0` or `v < 0`; otherwise in [50, 100) and exactly 50 at no votes, so the cap at 100 never applies |
| Reliability.Curve | core/reliability_calculator.py:17-47 | for a fixed item count, the curve is defined at every vote count and agrees with `calculate_reliability` |
| Reliability.MonotoneInVotes | core/reliability_calculator.py:35-44 | more votes never lower the reliability |
| Reliability.AntitoneInItems | core/reliability_calculator.py:35-44 | more items never raise the reliability for the same votes |
| Reliability.Reaches96 | core/reliability_calculator.py:35-44 | at 120 votes per item or more, the reliability is at least 96 |
| Reliability.Reaches99 | core/reliability_calculator.py:35-44 | at 500 votes per item or more, the reliability is at least 99 |
| Reliability.CalculateRequiredVotes | core/reliability_calculator.py:50-77 | 0 outside `n > 0, 50 < target < 100`; otherwise a count in [0, 1000 n] that either passes the 0.1 closeness test or is at most one below the least count reaching the target: every smaller count is below it, and the next count (when there is one) reaches it |
| Glicko2.Core.CreateRating | core/glicko2.py:72-73 | the rating is stored as given, on the Glicko scale, and `scale_down` of it measures mu from the core's centre |
| Glicko2.Core.ScaleDown | core/glicko2.py:83-87 | `scale_up` maps the result back to the input; sigma is kept; the centre rating maps to 0 |
| Glicko2.Core.ScaleUp | core/glicko2.py:89-93 | `scale_down` maps the result back to the input; sigma is kept |
| Glicko2.Core.ScaleRoundTrip | core/glicko2.py:83-93 | the two conversions are inverse to each other in both orders |
| Glicko2.Core.ScaleUpMonotone | core/glicko2.py:89-93 | scaling up keeps the order of mu |
| Glicko2.Core.RateOneVsOne | core/glicko2.py:99-108 | both volatilities are kept; in a game that is not drawn, player 1's mu rises and player 2's falls |
| Glicko2.ReduceImpact | core/glicko2.py:95-97 | the weight g(phi) lies in (0, 1] |
| Glicko2.ExpectedOutcome | core/glicko2.py:120 | the expected outcome lies strictly between 0 and 1 |
| Glicko2.VarianceTermPositive | core/glicko2.py:119-121 | every game adds a positive amount to the variance sum |
| Glicko2.VarianceSum | core/glicko2.py:116-124 | the variance sum is positive when there is a game, so `1 / variance` is defined |
| Glicko2.Rate | core/glicko2.py:110-130 | the accumulating loop computes exactly the rating period `Rated` |
| Glicko2.DetermineSigma | core/glicko2.py:132-138 | the stub returns the volatility unchanged, which is non-zero as `log(sigma ** 2)` needs |
| Glicko2.RatedKeepsVolatility | core/glicko2.py:127 | a rating period keeps sigma |
| Glicko2.ClosingDeviation | core/glicko2.py:128 | the new deviation is positive and below sqrt(phi^2 + sigma^2) |
| Glicko2.RatedDeviation | core/glicko2.py:112-128 | with no games, mu stays and phi becomes sqrt(phi^2 + sigma^2); with games, phi' lies strictly between 0 and that |
| Glicko2.ClosingMu | core/glicko2.py:129 | mu moves by phi'^2 times the improvement sum |
| Glicko2.DeltaTermSign | core/glicko2.py:122 | a won game adds a positive improvement; a lost game adds a negative one |
| Glicko2.DeltaSumSign | core/glicko2.py:118-122 | a period of wins has a positive improvement sum; a period of losses has a negative one |
| Glicko2.RatedMovesMu | core/glicko2.py:118-129 | a period of wins strictly raises mu; a period of losses strictly lowers it |
| Glicko2.IsDraw | core/glicko2.py:40 | a draw exactly when both scores lie strictly within 1e-6 of 1/2; a score of 1 or 0 is never a draw |
| Glicko2.Glicko2Rating.GetNewRatings | core/glicko2.py:49-59 | for an object whose results are those of `rate_1vs1` on its stored ratings, as every constructed one is: both volatilities are kept, and unless the stored scores are a draw A's mu rises and B's falls |
| Glicko2.NewGlicko2Rating | core/glicko2.py:18-47 | the object stores both ratings as given and the two scores, and its results are `rate_1vs1` of them with the draw flag; both volatilities are kept; unless the scores are a draw by the 1e-6 test (both strictly within 1e-6 of 1/2), A's mu rises and B's falls (as written) |
| Glicko2.LoserCreditedAsWinner | core/glicko2.py:39-43 | scores (0, 1) still raise A's mu and lower B's |
| Glicko2.NewGlicko2RatingByScore | core/glicko2.py:39-43 | the player with the higher score gains mu and the other loses it; volatilities are kept |
| Glicko2.ByScoreAgreesWhenAWins | core/glicko2.py:39-43 | the corrected constructor equals the source's whenever A's score is not below B's |
| Agreement.PositionMap | tests/test_glicko2.py:30 | the keys are exactly the elements of the order |
| Agreement.PositionMapLast | tests/test_glicko2.py:30 | each element maps to an index holding it, and to the last such index |
| Agreement.PositionMapDistinct | tests/test_glicko2.py:30 | without repetitions, each element maps to its own index |
| Agreement.RowCorrect | tests/test_glicko2.py:34-39 | one row of the pair loop keeps between 0 and all of its pairs |
| Agreement.Correct | tests/test_glicko2.py:33-39 | the kept pairs never outnumber the pairs |
| Agreement.PairCount | tests/test_glicko2.py:33-39 | the double loop visits n(n-1)/2 pairs |
| Agreement.PercentageBounds | tests/test_glicko2.py:41 | the percentage lies in [0, 100] and is 100 when every pair is kept |
| Agreement.RealReliability | tests/test_glicko2.py:25-41 | the share of the pairs of the reference order kept by the current order, as a percentage in [0, 100]; 0 with fewer than two items |
| Agreement.ComputeRealReliability | tests/test_glicko2.py:25-41 | the nested loops compute `RealReliability`; the result lies in [0, 100] and is 0 with fewer than two items |
| Agreement.RowAllKept | tests/test_glicko2.py:34-39 | when each element is at its own index, one row keeps all of its pairs |
| Agreement.AllKept | tests/test_glicko2.py:33-39 | when each element is at its own index, every pair is kept |
| Agreement.IdenticalOrder | tests/test_reliability.py:19-34 | an order without repetitions agrees 100% with itself |
| Harness.NewMedia | tests/test_glicko2.py:15-22 | a new item has Elo 1000, Glicko-2 (1500, 350, 0.06) and no votes |
| Harness.Original | tests/test_glicko2.py:48 | item i has id i and objective score n - i; there are no votes |
| Harness.Ids | tests/test_glicko2.py:48 | the original order is the ids 0..n-1 |
| Harness.ShuffleMembers | tests/test_glicko2.py:49-50 | a shuffle holds every id and nothing else |
| Harness.SumOfFresh | tests/test_glicko2.py:48 | a population of new items has no votes |
| Harness.SumVotesUpdate | tests/test_glicko2.py:116-117 | replacing one item changes the vote total by the change in its counter |
| Harness.MinVoteCount | tests/test_glicko2.py:72 | the minimum counter is attained and is below every counter |
| Harness.ChooseLeastVoted | tests/test_glicko2.py:72-74 | `media_a` has the fewest votes |
| Harness.ChooseOther | tests/test_reliability.py:83 | `media_b` is a different item |
| Harness.ChooseOpponent | tests/test_glicko2.py:79-84 | `media_b` differs from `media_a`; from 85% on, it is within 100 Elo points whenever such an item exists |
| Harness.Decide | tests/test_glicko2.py:86-90 | the winner is one of the pair and never has the lower objective score |
| Harness.DecideStrict | tests/test_glicko2.py:86-90 | two different items never tie; the winner is strictly better |
| Harness.CountVote | tests/test_glicko2.py:116-117 | both counters rise by one, nothing else changes, and the total rises by two |
| Harness.RatingsKeepVotes | tests/test_glicko2.py:97-98 | writing new ratings leaves the vote total alone |
| Harness.RankingIsShuffle | tests/test_glicko2.py:126 | ranking a shuffle gives a shuffle that holds every id |
| Harness.ShuffleAgreement | tests/test_reliability.py:105 | the agreement of a shuffle with the objective order is a percentage; 0 with fewer than two items; 100 for the objective order itself |
| Harness.RankAgreement | tests/test_glicko2.py:126-128 | the agreement of `sorted(order, key=...)` with the objective order is a percentage |
| Harness.TwoShuffles | tests/test_glicko2.py:49-50 | a shuffle of two ids is `[0, 1]` or `[1, 0]` |
| Harness.TwoItemsRankedInOrder | tests/test_glicko2.py:126-127 | two items ranked by a key that puts item 0 above item 1 agree fully with the objective order, whatever the shuffle |
| Sorting.Insert | tests/test_glicko2.py:126 | insertion lengthens the sequence by one |
| Sorting.InsertPermutes | tests/test_glicko2.py:126 | insertion adds exactly the new element to the multiset of elements |
| Sorting.InsertBounded | tests/test_glicko2.py:126 | insertion never raises the largest key above a common bound |
| Sorting.InsertDescending | tests/test_glicko2.py:126 | inserting into a descending sequence keeps it descending |
| Sorting.SortDesc | tests/test_glicko2.py:126 | the result has the input's length |
| Sorting.SortDescPermutes | tests/test_glicko2.py:126 | the result is a permutation of the input |
| Sorting.SortDescDescending | tests/test_glicko2.py:126 | the keys of the result never increase |
| Sorting.SortDescMembers | tests/test_reliability.py:104 | sorting keeps exactly the elements of the input |
| Glicko2Sim.DynamicK | tests/test_glicko2.py:94 | K is 32 below 85% and 16 from 85% on |
| Glicko2Sim.RateVote | tests/test_glicko2.py:92-113 | the dynamic and fixed Elo results are those of core/elo.py with K dynamic and K = 16; the Glicko-2 results are those of `Glicko2Rating(winner, loser, 1, 0).get_new_ratings()`, so the winner's mu rises and the loser's falls; sigma, ids, scores and counters are kept |
| Glicko2Sim.WriteBack | tests/test_glicko2.py:112-117 | the rated pair is written back with one more vote each, every other item is unchanged, the total rises by two, and volatilities stay at 0.06 |
| Glicko2Sim.ChooseVote | tests/test_glicko2.py:71-90 | `media_a` is least voted; `media_b` differs and is close from 85% on when possible; the winner is decided by objective score |
| Glicko2Sim.Vote | tests/test_glicko2.py:86-117 | the vote between `a` and `b`: the better item and the other become the winner and loser of `RateVote` (all three new ratings), so the better item's mu rises and the other's falls; both counters rise by one, every other item is unchanged, the total rises by two and the volatilities stay at 0.06 |
| Glicko2Sim.BelowStop | tests/test_glicko2.py:169-170 | a vote taken below 96% comes before 120 votes per item |
| Glicko2Sim.Record | tests/test_glicko2.py:125-138 | each of the three agreements is that of `sorted(medias)` by the system's rating (dynamic Elo, fixed Elo, Glicko-2 mu) with the objective order, a percentage |
| Glicko2Sim.Round | tests/test_glicko2.py:71-138 | one iteration takes a vote the loop may take (least-voted `media_a`, a different `media_b`, close from 85% on when possible) and its result is that vote; the population and the volatilities are kept, the total rises by two, and the three agreements are those of the ratings after the vote |
| Glicko2Sim.TrackedExtend | tests/test_glicko2.py:119-138 | appending the population after one more vote and its three agreements keeps every record tied to the ratings after its vote |
| Glicko2Sim.TracedExtend | tests/test_glicko2.py:70-118 | a vote the loop may take, at the current calculated reliability, extends the run's trace of populations |
| Glicko2Sim.Advance | tests/test_glicko2.py:71-138 | one iteration extends both the trace of populations and the three records |
| Glicko2Sim.VoteKeepsLeader | tests/test_glicko2.py:86-113 | with two items, any vote raises item 0's dynamic Elo, fixed Elo and mu and lowers item 1's |
| Glicko2Sim.StepKeepsLeader | tests/test_glicko2.py:70-118 | with two items, every vote the loop may take keeps the population and the volatilities and moves the three ratings of item 0 up and those of item 1 down |
| Glicko2Sim.TwoItemsLeader | tests/test_glicko2.py:70-118 | with two items, along any run item 0 is never rated below item 1 by any system, and strictly above after the first vote |
| Glicko2Sim.TwoItemsAgreeFully | tests/test_glicko2.py:119-138 | with two items, every recorded agreement of every system is 100 |
| Glicko2Sim.SimulateWith | tests/test_glicko2.py:68-170 | one record per vote; the k-th calculated reliability is the curve at k votes; the trace of populations starts fresh and each entry is a vote the loop may take from the one before at the logged calculated reliability; the k-th agreements are those of the three rankings of the one shuffle by the ratings after k + 1 votes, all percentages; the run stops at the first vote taken at 96% or more, within 120 n + 1 votes |
| Glicko2Sim.SimulateAndPlot | tests/test_glicko2.py:44-170 | the same run, with the same trace and agreements, with `calculate_reliability(n, k)` as the k-th calculated reliability; it ends within 120 votes per item |
| ReliabilitySim.CastVote | tests/test_reliability.py:79-100 | least-voted `media_a`, a different `media_b`, the better item wins; the ratings become the Elo update with K = 16; both counters rise and nothing else changes; the result is `Vote` of that pair |
| ReliabilitySim.Vote | tests/test_reliability.py:85-100 | the vote between `a` and `b`: the better item's and the other's Elo become the results of `Rating(winner.elo, loser.elo, WIN, LOST)`, both counters rise by one, every other item is unchanged, and the total rises by two |
| ReliabilitySim.Round | tests/test_reliability.py:79-100 | one iteration takes a vote the loop may take and its result is that vote; the population is kept and the total rises by two |
| ReliabilitySim.TracedExtend | tests/test_reliability.py:78-100 | a vote the loop may take extends the run's trace of populations |
| ReliabilitySim.Advance | tests/test_reliability.py:79-100 | one vote extends the trace and keeps every sample tied to its entry |
| ReliabilitySim.RecordedGrow | tests/test_reliability.py:78-107 | a longer trace keeps every sample tied to the ratings it was taken from |
| ReliabilitySim.TwoItemsLeader | tests/test_reliability.py:78-100 | with two items, along any run item 0 is never rated below item 1, and strictly above after the first vote |
| ReliabilitySim.TwoItemsAgreeFully | tests/test_reliability.py:102-107 | with two items, every sample taken after a vote has real reliability 100 |
| ReliabilitySim.BelowCeiling | tests/test_reliability.py:137-138 | a sample below 99% is taken before 500 votes per item |
| ReliabilitySim.SampleStep | tests/test_reliability.py:103 | between samples, a sample is due exactly at the next multiple of ten |
| ReliabilitySim.CeilingIsSampled | tests/test_reliability.py:103 | 500 votes per item is a sampled vote count |
| ReliabilitySim.Sample | tests/test_reliability.py:104-105 | the in-place sort leaves the stable sort of the previous order by descending Elo, still a shuffle; the agreement is that order's agreement with the objective order |
| ReliabilitySim.RecordedExtend | tests/test_reliability.py:103-107 | a sample that re-sorts the last order by the ratings after `total` votes extends the record: its vote count, its order and its agreement are appended |
| ReliabilitySim.RecordSample | tests/test_reliability.py:103-107 | a sample re-sorts the last order by the current ratings, the trace's entry at the current vote count, and enters the record |
| ReliabilitySim.TakeSample | tests/test_reliability.py:102-107 | the sample due at `total` votes re-sorts the last order, appends its vote count and the curve there to the logs, and keeps the record and the schedule |
| ReliabilitySim.Iterate | tests/test_reliability.py:79-107 | one pass of the loop casts a vote that extends the trace, adds one to the vote count, and samples exactly when the new count is a multiple of ten; the loop state is kept |
| ReliabilitySim.SimulateWith | tests/test_reliability.py:78-138 | samples at 10, 20, 30, ... votes; each calculated reliability is the curve at its vote count; the trace of populations starts fresh and each entry is a vote the loop may take from the one before; each sample's order is the previous one (the initial shuffle for the first) sorted again by the trace's ratings at that sample, and its real reliability is that order's agreement, a percentage; the run stops at the first sample at 99% or more, within 500 n votes |
| ReliabilitySim.SimulateAndPlot | tests/test_reliability.py:64-138 | the same run with `calculate_reliability(n, votes)` and the same trace, orders and agreements; it ends within 500 votes per item |
| VotesNeeded.InlineUpdate | tests/test_votes_needed.py:60-63 | the inline update is zero-sum; the winner gains strictly between 0 and 32, and exactly 16 between equals |
| VotesNeeded.InlineIsElo | tests/test_votes_needed.py:60-63 | the inline update equals core/elo.py's update for a win with K = 32 |
| VotesNeeded.CastVote | tests/test_votes_needed.py:45-68 | least-voted `media_a`, a different `media_b`, the better item wins; the two new ratings are the inline update with K = 32, zero-sum, the winner gaining less than 32; both counters rise and nothing else changes |
| VotesNeeded.SimulateUntilThreshold | tests/test_votes_needed.py:36-77 | the result is `max_votes` or a positive multiple of 50 below it |
| Database.Baseline | db/database.py:80-81 | the tracking dictionary holds every image at 1200 |
| Database.ReplayStep | db/database.py:84-104 | a vote naming an untracked image changes nothing; otherwise only the pair changes, the winner gains, and the pair's total is kept |
| Database.Replay | db/database.py:84-104 | replaying the ledger tracks the same images it started with |
| Database.Appearances | db/database.py:99-104 | a replayed vote count never exceeds the ledger length |
| Database.Without | db/database.py:135-138 | the ledger keeps exactly the votes that do not name the image |
| Database.AfterVote | db/database.py:239-254 | the two row updates: a missing id changes nothing; otherwise the rating is set and the count rises (by two for a self-vote); other rows and all paths are kept |
| Database.KeysOf | db/database.py:207 | the ids of the table, each once (the multiset of the result is the key set) |
| Database.LeastVotedExists | db/database.py:217-221 | a non-empty table has an image with the fewest votes |
| Database.Offset | db/database.py:203 | the offset is `(page - 1) * per_page`, read as 0 when negative |
| Database.PageSize | db/database.py:210-211 | the page holds at most `per_page` rows (no bound when negative), never runs past the table, and is full when enough rows follow the offset |
| Database.CountVote | db/database.py:99-104 | counting a vote keeps the ids |
| Database.CountingStep | db/database.py:84-104 | counting the next ledger vote extends the counts to one more vote |
| Database.ReplayNext | db/database.py:84-104 | replaying the next ledger vote is one more replay step |
| Database.RowsOf | db/database.py:206-213 | each fetched row is the table's row for its id, in order |
| Database.PageRanked | db/database.py:203-213 | a page of the rating order has the SQL `LIMIT`/`OFFSET` length, holds table rows, lists them highest first, and the first page starts with a top-rated image |
| Database.ReplayLedger | db/database.py:58-117 | the rebuilt table keeps the ids and paths, and every rating and vote count equals the replay of the ledger |
| Database.WriteRatings | db/database.py:108-114 | every tracked rating is written to its row and nothing else changes |
| Database.Database.constructor | db/database.py:20-44 | a new database has empty tables and the next id is 1 |
| Database.Database.AddImage | db/database.py:46-56 | the insert fails exactly when the path already exists; otherwise the image gets the next id, rating 1200 and no votes; ids stay positive and paths unique |
| Database.Database.RecalculateRatings | db/database.py:58-117 | ids, paths and the ledger are kept, every rating and vote count equals the replay of the ledger, and positive ids and unique paths are kept |
| Database.Database.DeleteImage | db/database.py:119-154 | returns the old path or None; the image and every vote naming it are gone; the rest is replayed; ids stay positive and paths unique |
| Database.Database.UpdateRatings | db/database.py:239-254 | as written: the two row updates and no vote row; positive ids and unique paths are kept |
| Database.Database.RecordVote | db/database.py:156-185 | the two row updates and the vote appended to the ledger; positive ids and unique paths are kept |
| Database.Database.GetPairForVoting | db/database.py:215-237 | (None, None) exactly on an empty table; otherwise a least-voted row and a different row, or None when no other row exists |
| Database.Database.GetRankingsPage | db/database.py:187-213 | the total is the table size; the page is the `LIMIT`/`OFFSET` window of a ranking that holds every id once in descending rating order; so it has the SQL length, its rows are table rows, highest rating first, and the first page starts with a top-rated image |
| Database.RemovedVotesWouldBeSkipped | db/database.py:136-144 | deleting the votes of a missing image changes neither the replayed ratings nor the replayed counts |
| Database.SumOverUpdate | db/database.py:96-98 | changing one rating changes the total by the difference when that id is listed |
| Database.BaselineSum | db/database.py:80-81 | the initial ratings add up to 1200 per image |
| Database.ReplayKeepsSum | db/database.py:84-104 | replaying votes between two different images keeps the total of the ratings |
| Database.RatingSumConserved | db/database.py:58-117 | after a replay without self-votes, the ratings add up to 1200 per image |
| Database.LiveVoteLostOnReplay | db/database.py:239-254 | after a vote through the as-written `update_ratings`, the table no longer equals the replay of its ledger |
| Database.RecordVoteKeepsReplay | db/database.py:156-185 | after a vote recorded as the first definition does, with the Elo result of the stored ratings, the table equals the replay of the extended ledger |

## Left out

- Plotting, the crossing-point interpolation, the statistics and the pytest drivers are
  left out. They only present or average the simulation results.
- Seeds, `random.seed` and the distribution of `random.choice`, `random.shuffle`,
  `ORDER BY RANDOM()` are left out. Each random choice is a nondeterministic choice, so every
  result holds for every outcome.
- Python floats are modelled as exact reals. `10 ** x`, `math.exp` and `math.sqrt` are
  characterised by laws rather than computed.
- tests/test_glicko2.py calls `Rating(...)` with a fifth argument, K, which core/elo.py's
  constructor does not accept; tests/test_reliability.py passes the usual four. The
  harnesses also import `ReliabilityCalculator` from core.elo, where it is not
  defined. The model takes the evident intent: K is a parameter of `Elo.Create` with default
  16, and the curve is that of core/reliability_calculator.py.
- `Glicko2._determine_sigma` is modelled as its stub, which returns sigma. The reference
  algorithm mentioned in its comment is not part of this model. `math.log(sigma ** 2)` needs
  sigma != 0, which `Rated` requires.
- `Harness.Media` carries the union of the three harnesses' fields. tests/test_reliability.py
  and tests/test_votes_needed.py never touch the Glicko-2 and fixed-Elo fields.
- Python's `sorted` and `list.sort` are modelled by `Sorting.SortDesc`, a stable insertion
  sort.
- Glicko2Sim.SimulateWith and Glicko2Sim.SimulateAndPlot require `n >= 2`: with fewer
  items the source raises (`min()` of an empty list at n = 0, `random.choice([])` at n = 1),
  and the model does not model the exception.
- ReliabilitySim.SimulateWith and ReliabilitySim.SimulateAndPlot require `n >= 2` for the
  same reason.
- VotesNeeded.SimulateUntilThreshold requires `n >= 2` whenever votes are to be cast, for
  the same reason.
- Glicko2Sim.SimulateWith and ReliabilitySim.SimulateWith take the reliability curve as a
  parameter. The `SimulateAndPlot` methods instantiate it with `calculate_reliability`.
- Reliability.CalculateRequiredVotes: does not claim that the result is the least vote
  count reaching the target. The search's `high = mid - 1` can stop one below it, and a
  count passing the 0.1 closeness test ends the search wherever it lies.
- VotesNeeded.SimulateUntilThreshold: the returned vote count is not related to the
  threshold. The agreement at that count is a property of the random run.
- Database.Database.constructor: models creating a new database file. Opening an existing
  file, whose tables already hold rows, is not modelled.
- SQL transactions, `rollback`, `commit` and raised exceptions are left out. Each method's
  effect is modelled as one state change.
- The order of votes with equal timestamps is not modelled: the ledger is in append order.
  The order among equal ratings in `ORDER BY rating DESC` is also not modelled; the page
  states only that rows come highest first.
- `str(Path(image_path))` normalisation is left out. Paths are compared as given.
- `print` calls and `close` are left out.
- Within `_recalculate_ratings`, the row updates are made on a copy of the table that is
  written back once. The statements run inside one connection and are committed together,
  so only the final table is observable.
- Database.RatingSumConserved: requires a ledger without self-votes. A self-vote applies
  only the loser's result to the one image, so the total is not kept.

## Findings

| source | as written | input that shows it | evidently intended | confidence | as-written member | corrected member |
|---|---|---|---|---|---|---|
| db/database.py:239-254 | a second `update_ratings` replaces the first (156-185). It updates the two rows but writes no vote row, so live votes never reach the ledger. | Two stored images, one vote through `update_ratings`, then `delete_image` of any image: the replay drops that vote's rating change and count | record the vote in `votes` as the first definition does | high (not executed) | Database.LiveVoteLostOnReplay | Database.RecordVoteKeepsReplay |
| core/glicko2.py:39-43 | `drawn` only tests for 0.5/0.5. Any other scores run `rate_1vs1(A, B)`, which credits A with the win. | scores (0, 1): B won, yet A's mu rises and B's falls | the higher score wins | medium (not executed; every caller in the repository passes (1, 0)) | Glicko2.LoserCreditedAsWinner | Glicko2.NewGlicko2RatingByScore |
