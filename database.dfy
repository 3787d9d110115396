/**
  db/database.py: the `images` table, the `votes` ledger, and the replay that
  rebuilds every rating and vote count from the ledger with the Elo update of
  core/elo.py.  Both tables are fields of a `Database` object: `images` maps an
  id to its row, `votes` lists the ledger in timestamp order, and `nextId` is
  the AUTOINCREMENT counter of the images table.
 */
module Database {
  import opened Numerics
  import Elo
  import Sorting

  datatype Option<T> = None | Some(value: T)

  /** The column default of `images.rating`, and the rating every replay starts from. */
  const DefaultRating: real := 1200.0

  /** The `LIMIT` of `get_rankings_page` when no page size is given. */
  const DefaultPerPage: int := 50

  /** A row of `images` without its key. */
  datatype Image = Image(path: string, rating: real, votes: int)

  /** A row of `votes`; the ledger's order is the `ORDER BY timestamp ASC` order. */
  datatype Vote = Vote(winnerId: int, loserId: int)

  /** `SELECT id, path, rating, votes`: a whole row of `images`. */
  datatype Row = Row(id: int, path: string, rating: real, votes: int)

  function RowOf(images: map<int, Image>, id: int): (row: Row)
    requires id in images
    ensures row.id == id && row.path == images[id].path
    ensures row.rating == images[id].rating && row.votes == images[id].votes
  {
    Row(id, images[id].path, images[id].rating, images[id].votes)
  }

  /** `{row[0]: 1200 for row in ...}`: every tracked image at the default rating. */
  function Baseline(ids: set<int>): (ratings: map<int, real>)
    ensures ratings.Keys == ids
    ensures forall id | id in ids :: ratings[id] == DefaultRating
  {
    map id | id in ids :: DefaultRating
  }

  /** `winner_id in ratings and loser_id in ratings`: the replay applies the vote. */
  predicate Applies(v: Vote, ids: set<int>) {
    v.winnerId in ids && v.loserId in ids
  }

  /**
    One vote of the replay: a vote naming an untracked image changes nothing;
    otherwise the winner takes the first and the loser the second result of
    `Rating(ratings[winner], ratings[loser], WIN, LOST)`, so a self-vote leaves
    the second one.  Between two different images the pair's total is kept.
   */
  function ReplayStep(num: Numerics, ratings: map<int, real>, v: Vote): (r: map<int, real>)
    requires num.Valid()
    ensures r.Keys == ratings.Keys
    ensures !Applies(v, ratings.Keys) ==> r == ratings
    ensures forall id | id in ratings && id != v.winnerId && id != v.loserId :: r[id] == ratings[id]
    ensures Applies(v, ratings.Keys) && v.winnerId != v.loserId ==>
              (r[v.winnerId] + r[v.loserId] == ratings[v.winnerId] + ratings[v.loserId]
               && r[v.winnerId] > ratings[v.winnerId])
  {
    if Applies(v, ratings.Keys) then
      var rating := Elo.Create(num, ratings[v.winnerId], ratings[v.loserId], Elo.Win, Elo.Lost);
      var newRatings := rating.GetNewRatings();
      assert newRatings.0 > ratings[v.winnerId] by {
        assert rating.newRatingA == ratings[v.winnerId] + Elo.KFactor * (1.0 - rating.expectedA);
      }
      ratings[v.winnerId := newRatings.0][v.loserId := newRatings.1]
    else
      ratings
  }

  /** The ratings after replaying `votes` in order from `start`. */
  function Replay(num: Numerics, start: map<int, real>, votes: seq<Vote>): (r: map<int, real>)
    requires num.Valid()
    ensures r.Keys == start.Keys
  {
    if votes == [] then start
    else ReplayStep(num, Replay(num, start, votes[..|votes| - 1]), votes[|votes| - 1])
  }

  /**
    The vote count the replay gives image `id`: the applied votes naming it,
    a self-vote once (`WHERE id IN (?, ?)`).
   */
  function Appearances(id: int, votes: seq<Vote>, ids: set<int>): (c: nat)
    ensures c <= |votes|
  {
    if votes == [] then 0
    else
      var v := votes[|votes| - 1];
      Appearances(id, votes[..|votes| - 1], ids)
      + (if Applies(v, ids) && (v.winnerId == id || v.loserId == id) then 1 else 0)
  }

  /** Every rating and vote count is the replay's of the ledger. */
  ghost predicate Replayed(num: Numerics, images: map<int, Image>, votes: seq<Vote>)
    requires num.Valid()
  {
    forall id | id in images ::
      && images[id].rating == Replay(num, Baseline(images.Keys), votes)[id]
      && images[id].votes == Appearances(id, votes, images.Keys)
  }

  /**
    `DELETE FROM votes WHERE winner_id = ? OR loser_id = ?`: the ledger in the
    same order without the votes naming `id`.
   */
  function Without(votes: seq<Vote>, id: int): (r: seq<Vote>)
    ensures |r| <= |votes|
    ensures forall v | v in r :: v in votes && v.winnerId != id && v.loserId != id
    ensures forall v | v in votes && v.winnerId != id && v.loserId != id :: v in r
  {
    if votes == [] then []
    else
      var prefix, v := votes[..|votes| - 1], votes[|votes| - 1];
      assert votes == prefix + [v];
      Without(prefix, id) + (if v.winnerId == id || v.loserId == id then [] else [v])
  }

  /**
    The two `UPDATE images SET rating = ?, votes = votes + 1 WHERE id = ?`
    statements of `update_ratings`: a missing id matches no row, and for a
    self-vote the second statement overwrites the first rating and the count
    rises by two.
   */
  function AfterVote(images: map<int, Image>, winnerId: int, loserId: int,
                     newWinnerRating: real, newLoserRating: real): (r: map<int, Image>)
    ensures r.Keys == images.Keys
    ensures forall id | id in images :: r[id].path == images[id].path
    ensures forall id | id in images && id != winnerId && id != loserId :: r[id] == images[id]
    ensures loserId in images ==> r[loserId].rating == newLoserRating
    ensures winnerId in images && winnerId != loserId
            ==> r[winnerId].rating == newWinnerRating && r[winnerId].votes == images[winnerId].votes + 1
    ensures loserId in images && winnerId != loserId ==> r[loserId].votes == images[loserId].votes + 1
    ensures winnerId in images && winnerId == loserId ==> r[winnerId].votes == images[winnerId].votes + 2
  {
    var once :=
      if winnerId in images
      then images[winnerId := images[winnerId].(rating := newWinnerRating, votes := images[winnerId].votes + 1)]
      else images;
    if loserId in once
    then once[loserId := once[loserId].(rating := newLoserRating, votes := once[loserId].votes + 1)]
    else once
  }

  /** A set that is not empty has a member. */
  lemma SomeMember(s: set<int>)
    requires s != {}
    ensures exists x :: x in s
  {
    if forall x :: x !in s {
      assert false;
    }
  }

  /** `SELECT id FROM images`: every id once, in some order. */
  method KeysOf(images: map<int, Image>) returns (ids: seq<int>)
    ensures forall x :: x in ids <==> x in images
    ensures |ids| == |images|
    ensures multiset(ids) == multiset(images.Keys)
  {
    ids := [];
    var pending := images.Keys;
    while pending != {}
      invariant pending <= images.Keys
      invariant forall x :: x in ids <==> x in images && x !in pending
      invariant |ids| + |pending| == |images|
      invariant multiset(ids) + multiset(pending) == multiset(images.Keys)
      decreases pending
    {
      SomeMember(pending);
      var x :| x in pending;
      assert multiset(pending) == multiset(pending - {x}) + multiset{x};
      ids := ids + [x];
      pending := pending - {x};
    }
  }

  /** Some image has the fewest votes. */
  lemma {:induction false} LeastVotedExists(images: map<int, Image>, ids: set<int>)
    requires ids != {} && ids <= images.Keys
    ensures exists id | id in ids :: forall j | j in ids :: images[id].votes <= images[j].votes
    decreases ids
  {
    SomeMember(ids);
    var x :| x in ids;
    if ids != {x} {
      var rest := ids - {x};
      LeastVotedExists(images, rest);
      var y :| y in rest && forall j | j in rest :: images[y].votes <= images[j].votes;
      if images[x].votes < images[y].votes {
        assert forall j | j in ids :: images[x].votes <= images[j].votes;
      } else {
        assert forall j | j in ids :: images[y].votes <= images[j].votes;
      }
    } else {
      assert forall j | j in ids :: j == x;
    }
  }

  /** `ORDER BY rating DESC` as a sort key on ids. */
  function RatingKey(images: map<int, Image>): int -> real {
    id => if id in images then images[id].rating else 0.0
  }

  /** `OFFSET`: SQLite reads a negative offset as zero. */
  function Offset(page: int, perPage: int): (offset: nat)
    ensures offset == if (page - 1) * perPage < 0 then 0 else (page - 1) * perPage
  {
    if (page - 1) * perPage < 0 then 0 else (page - 1) * perPage
  }

  /** `LIMIT ? OFFSET ?` on `n` rows: SQLite reads a negative limit as no limit. */
  function PageSize(n: nat, offset: nat, limit: int): (size: nat)
    ensures offset + size <= n || size == 0
    ensures 0 <= limit ==> size <= limit
    ensures offset < n && (limit < 0 || offset + limit >= n) ==> offset + size == n
    ensures offset < n && 0 <= limit && offset + limit < n ==> size == limit
  {
    if offset >= n then 0
    else if limit < 0 || offset + limit >= n then n - offset
    else limit
  }

  /** `UPDATE images SET votes = votes + 1 WHERE id IN (?, ?)`. */
  function CountVote(images: map<int, Image>, v: Vote): (r: map<int, Image>)
    ensures r.Keys == images.Keys
  {
    map id | id in images ::
      if id == v.winnerId || id == v.loserId then images[id].(votes := images[id].votes + 1) else images[id]
  }

  /**
    Part way through the replay: the ids and paths of `before`, every rating
    still at the default, and every count that of the votes replayed so far.
   */
  ghost predicate Counting(before: map<int, Image>, images: map<int, Image>, votes: seq<Vote>) {
    && images.Keys == before.Keys
    && forall id | id in images ::
         && images[id].path == before[id].path
         && images[id].rating == DefaultRating
         && images[id].votes == Appearances(id, votes, before.Keys)
  }

  /** Counting one more vote of the ledger. */
  lemma CountingStep(before: map<int, Image>, images: map<int, Image>, votes: seq<Vote>, i: int)
    requires 0 <= i < |votes| && Counting(before, images, votes[..i])
    ensures Applies(votes[i], before.Keys) ==> Counting(before, CountVote(images, votes[i]), votes[..i + 1])
    ensures !Applies(votes[i], before.Keys) ==> Counting(before, images, votes[..i + 1])
  {
    assert votes[..i + 1][..i] == votes[..i];
  }

  /** Replaying one more vote of the ledger. */
  lemma ReplayNext(num: Numerics, start: map<int, real>, votes: seq<Vote>, i: int)
    requires num.Valid() && 0 <= i < |votes|
    ensures Replay(num, start, votes[..i + 1]) == ReplayStep(num, Replay(num, start, votes[..i]), votes[i])
  {
    assert votes[..i + 1][..i] == votes[..i];
  }

  /** `ORDER BY rating DESC`: no row is rated above an earlier one. */
  predicate HighestFirst(rows: seq<Row>) {
    forall k, j | 0 <= k < j < |rows| :: rows[k].rating >= rows[j].rating
  }

  /** The rows of the ids in `window`, in order. */
  function RowsOf(table: map<int, Image>, window: seq<int>): (rows: seq<Row>)
    requires forall k | 0 <= k < |window| :: window[k] in table
    ensures |rows| == |window| && forall k | 0 <= k < |window| :: rows[k] == RowOf(table, window[k])
  {
    seq(|window|, k requires 0 <= k < |window| => RowOf(table, window[k]))
  }

  /**
    `LIMIT perPage OFFSET (page - 1) * perPage` on the ids in `ranking`
    order: the rows of the selected window.
   */
  function RankingsPage(table: map<int, Image>, ranking: seq<int>, page: int, perPage: int): seq<Row>
    requires forall k | 0 <= k < |ranking| :: ranking[k] in table
  {
    var offset := Offset(page, perPage);
    var size := PageSize(|ranking|, offset, perPage);
    if size == 0 then [] else RowsOf(table, ranking[offset .. offset + size])
  }

  /**
    A page of the ranking by rating has the SQL length, holds rows of the
    table, lists them highest first, and the first page starts with a
    top-rated image.
   */
  lemma PageRanked(table: map<int, Image>, ranking: seq<int>, page: int, perPage: int)
    requires Sorting.Descending(ranking, RatingKey(table))
    requires forall k | 0 <= k < |ranking| :: ranking[k] in table
    requires forall id | id in table :: id in ranking
    requires |ranking| == |table|
    ensures var rows := RankingsPage(table, ranking, page, perPage);
            && |rows| == PageSize(|table|, Offset(page, perPage), perPage)
            && (0 <= perPage ==> |rows| <= perPage)
            && (forall k | 0 <= k < |rows| :: rows[k].id in table && rows[k] == RowOf(table, rows[k].id))
            && HighestFirst(rows)
            && (Offset(page, perPage) == 0 && rows != []
                ==> forall id | id in table :: table[id].rating <= rows[0].rating)
  {
    var key := RatingKey(table);
    var offset := Offset(page, perPage);
    var size := PageSize(|ranking|, offset, perPage);
    var rows := RankingsPage(table, ranking, page, perPage);
    forall k, j | 0 <= k < j < |rows|
      ensures rows[k].rating >= rows[j].rating
    {
      assert key(ranking[offset + k]) >= key(ranking[offset + j]);
    }
    if offset == 0 && rows != [] {
      forall id | id in table
        ensures table[id].rating <= rows[0].rating
      {
        var j :| 0 <= j < |ranking| && ranking[j] == id;
        if j > 0 {
          assert key(ranking[0]) >= key(ranking[j]);
        }
      }
    }
  }

  /**
    The statements of `_recalculate_ratings()`, on a copy of the table: every
    image back to 1200 and 0 votes, the ledger replayed in order on a
    dictionary of ratings (votes naming a missing image skipped, the others
    counted for both images), and the final ratings written back.
   */
  method ReplayLedger(num: Numerics, images: map<int, Image>, ledger: seq<Vote>)
    returns (table: map<int, Image>)
    requires num.Valid()
    ensures table.Keys == images.Keys
    ensures forall id | id in table :: table[id].path == images[id].path
    ensures Replayed(num, table, ledger)
  {
    table := map id | id in images :: images[id].(rating := DefaultRating, votes := 0);
    ghost var ids := table.Keys;
    assert ledger[..0] == [];
    var ratings := Baseline(table.Keys);
    for i := 0 to |ledger|
      invariant ratings == Replay(num, Baseline(ids), ledger[..i])
      invariant Counting(images, table, ledger[..i])
    {
      var v := ledger[i];
      ReplayNext(num, Baseline(ids), ledger, i);
      CountingStep(images, table, ledger, i);
      if v.winnerId in ratings && v.loserId in ratings {
        var rating := Elo.Create(num, ratings[v.winnerId], ratings[v.loserId], Elo.Win, Elo.Lost);
        var newRatings := rating.GetNewRatings();
        ratings := ratings[v.winnerId := newRatings.0][v.loserId := newRatings.1];
        table := CountVote(table, v);
      }
    }
    assert ledger[..|ledger|] == ledger;
    table := WriteRatings(table, ratings);
  }

  /** The closing loop of `_recalculate_ratings()`: each tracked rating written to its row. */
  method WriteRatings(table: map<int, Image>, ratings: map<int, real>) returns (written: map<int, Image>)
    requires ratings.Keys == table.Keys
    ensures written.Keys == table.Keys
    ensures forall id | id in table :: written[id] == table[id].(rating := ratings[id])
  {
    written := table;
    var pending := ratings.Keys;
    while pending != {}
      invariant pending <= table.Keys && written.Keys == table.Keys
      invariant forall id | id in table ::
                  written[id] == if id in pending then table[id] else table[id].(rating := ratings[id])
      decreases pending
    {
      SomeMember(pending);
      var id :| id in pending;
      written := written[id := written[id].(rating := ratings[id])];
      pending := pending - {id};
    }
  }

  class Database {
    var images: map<int, Image>
    var votes: seq<Vote>
    var nextId: int

    /** AUTOINCREMENT ids are positive and below the next one; `path` is UNIQUE. */
    ghost predicate Valid()
      reads this
    {
      && nextId >= 1
      && (forall id | id in images :: 1 <= id < nextId)
      && (forall i, j | i in images && j in images && i != j :: images[i].path != images[j].path)
    }

    /** A new database file: both tables created empty. */
    constructor ()
      ensures Valid() && images == map[] && votes == [] && nextId == 1
    {
      images, votes, nextId := map[], [], 1;
    }

    /**
      `add_image(path)`: the insert fails on the UNIQUE path constraint;
      otherwise the image gets the next id, the default rating and no votes.
     */
    method AddImage(path: string) returns (added: bool)
      requires Valid()
      modifies this
      ensures Valid() && votes == old(votes)
      ensures added <==> forall id | id in old(images) :: old(images)[id].path != path
      ensures added ==> images == old(images)[old(nextId) := Image(path, DefaultRating, 0)]
                        && nextId == old(nextId) + 1
      ensures !added ==> images == old(images) && nextId == old(nextId)
    {
      if exists id | id in images :: images[id].path == path {
        return false;
      }
      images := images[nextId := Image(path, DefaultRating, 0)];
      nextId := nextId + 1;
      return true;
    }

    /**
      `_recalculate_ratings()`: every rating and vote count rebuilt by
      replaying the ledger; paths, ids and the ledger are untouched.
     */
    method RecalculateRatings(num: Numerics)
      requires num.Valid()
      modifies this
      ensures votes == old(votes) && nextId == old(nextId) && images.Keys == old(images).Keys
      ensures forall id | id in images :: images[id].path == old(images)[id].path
      ensures Replayed(num, images, votes)
      ensures old(Valid()) ==> Valid()
    {
      images := ReplayLedger(num, images, votes);
    }

    /**
      `delete_image(image_id)`: the old path, or None when there is no such
      image; the image and every vote naming it are gone, and the rest is
      replayed.
     */
    method DeleteImage(num: Numerics, imageId: int) returns (path: Option<string>)
      requires num.Valid()
      modifies this
      ensures path == if imageId in old(images) then Some(old(images)[imageId].path) else None
      ensures votes == Without(old(votes), imageId)
      ensures forall v | v in votes :: v.winnerId != imageId && v.loserId != imageId
      ensures images.Keys == old(images).Keys - {imageId} && nextId == old(nextId)
      ensures forall id | id in images :: images[id].path == old(images)[id].path
      ensures Replayed(num, images, votes)
      ensures old(Valid()) ==> Valid()
    {
      path := if imageId in images then Some(images[imageId].path) else None;
      votes := Without(votes, imageId);
      images := images - {imageId};
      RecalculateRatings(num);
    }

    /**
      `update_ratings` as the class finally defines it (the second
      definition): the two row updates, and no vote row.
     */
    method UpdateRatings(winnerId: int, loserId: int, newWinnerRating: real, newLoserRating: real)
      modifies this
      ensures images == AfterVote(old(images), winnerId, loserId, newWinnerRating, newLoserRating)
      ensures votes == old(votes) && nextId == old(nextId)
      ensures old(Valid()) ==> Valid()
    {
      if winnerId in images {
        images := images[winnerId := images[winnerId].(rating := newWinnerRating,
                                                       votes := images[winnerId].votes + 1)];
      }
      if loserId in images {
        images := images[loserId := images[loserId].(rating := newLoserRating,
                                                     votes := images[loserId].votes + 1)];
      }
    }

    /**
      `update_ratings` as first defined: the same two row updates and the
      vote appended to the ledger.
     */
    method RecordVote(winnerId: int, loserId: int, newWinnerRating: real, newLoserRating: real)
      modifies this
      ensures images == AfterVote(old(images), winnerId, loserId, newWinnerRating, newLoserRating)
      ensures votes == old(votes) + [Vote(winnerId, loserId)] && nextId == old(nextId)
      ensures old(Valid()) ==> Valid()
    {
      UpdateRatings(winnerId, loserId, newWinnerRating, newLoserRating);
      votes := votes + [Vote(winnerId, loserId)];
    }

    /**
      `get_pair_for_voting()`: (None, None) on an empty table; otherwise an
      image with the fewest votes, and any other image, or None when there is
      no other.
     */
    method GetPairForVoting() returns (leastVoted: Option<Row>, randomImage: Option<Row>)
      ensures images == map[] <==> leastVoted == None
      ensures leastVoted == None ==> randomImage == None
      ensures leastVoted.Some? ==>
                (&& leastVoted.value.id in images
                 && leastVoted.value == RowOf(images, leastVoted.value.id)
                 && forall id | id in images :: leastVoted.value.votes <= images[id].votes)
      ensures randomImage.Some? ==>
                (&& leastVoted.Some? && randomImage.value.id in images
                 && randomImage.value == RowOf(images, randomImage.value.id)
                 && randomImage.value.id != leastVoted.value.id)
      ensures leastVoted.Some? && randomImage == None ==> images.Keys == {leastVoted.value.id}
    {
      if images == map[] {
        return None, None;
      }
      LeastVotedExists(images, images.Keys);
      var least :| least in images && forall j | j in images :: images[least].votes <= images[j].votes;
      leastVoted := Some(RowOf(images, least));
      if exists other | other in images :: other != least {
        var other :| other in images && other != least;
        randomImage := Some(RowOf(images, other));
      } else {
        randomImage := None;
      }
    }

    /**
      `get_rankings_page(page, per_page)`: the rows ranked by rating, highest
      first, from offset `(page - 1) * per_page`, at most `per_page` of them,
      and the number of images.
     */
    method GetRankingsPage(page: int, perPage: int := DefaultPerPage)
      returns (rows: seq<Row>, totalImages: int, ghost ranking: seq<int>)
      ensures multiset(ranking) == multiset(images.Keys) && Sorting.Descending(ranking, RatingKey(images))
      ensures forall k | 0 <= k < |ranking| :: ranking[k] in images
      ensures rows == RankingsPage(images, ranking, page, perPage)
      ensures totalImages == |images|
      ensures |rows| == PageSize(|images|, Offset(page, perPage), perPage)
      ensures 0 <= perPage ==> |rows| <= perPage
      ensures forall k | 0 <= k < |rows| :: rows[k].id in images && rows[k] == RowOf(images, rows[k].id)
      ensures HighestFirst(rows)
      ensures Offset(page, perPage) == 0 && rows != []
              ==> forall id | id in images :: images[id].rating <= rows[0].rating
    {
      var table := images;
      totalImages := |table|;
      var ids := KeysOf(table);
      assert forall x :: x in ids <==> x in table;
      var sorted := Sorting.SortDesc(ids, RatingKey(table));
      Sorting.SortDescMembers(ids, RatingKey(table));
      Sorting.SortDescPermutes(ids, RatingKey(table));
      Sorting.SortDescDescending(ids, RatingKey(table));
      forall k | 0 <= k < |sorted|
        ensures sorted[k] in table
      {
        assert sorted[k] in sorted;
      }
      ranking := sorted;
      var offset := Offset(page, perPage);
      var size := PageSize(|sorted|, offset, perPage);
      if size == 0 {
        rows := [];
      } else {
        rows := RowsOf(table, sorted[offset .. offset + size]);
      }
      PageRanked(table, sorted, page, perPage);
    }
  }

  /**
    Deleting the votes that name a missing image changes neither the replayed
    ratings nor the replayed counts: the replay skips those votes anyway.
   */
  lemma {:induction false} RemovedVotesWouldBeSkipped(num: Numerics, start: map<int, real>,
                                                     votes: seq<Vote>, id: int)
    requires num.Valid() && id !in start
    ensures Replay(num, start, Without(votes, id)) == Replay(num, start, votes)
    ensures forall x :: Appearances(x, Without(votes, id), start.Keys) == Appearances(x, votes, start.Keys)
  {
    if votes != [] {
      var prefix, v := votes[..|votes| - 1], votes[|votes| - 1];
      RemovedVotesWouldBeSkipped(num, start, prefix, id);
      var kept := Without(votes, id);
      if v.winnerId == id || v.loserId == id {
        assert kept == Without(prefix, id);
      } else {
        assert kept == Without(prefix, id) + [v];
        assert kept[..|kept| - 1] == Without(prefix, id);
      }
    }
  }

  /** No id is listed twice. */
  predicate Distinct(ids: seq<int>) {
    forall i, j | 0 <= i < j < |ids| :: ids[i] != ids[j]
  }

  /** The total of the ratings of `ids`. */
  function SumOver(ratings: map<int, real>, ids: seq<int>): real
    requires forall k | 0 <= k < |ids| :: ids[k] in ratings
  {
    if ids == [] then 0.0 else SumOver(ratings, ids[..|ids| - 1]) + ratings[ids[|ids| - 1]]
  }

  /** The ratings column of the table. */
  function RatingsOf(images: map<int, Image>): (ratings: map<int, real>)
    ensures ratings.Keys == images.Keys
    ensures forall id | id in images :: ratings[id] == images[id].rating
  {
    map id | id in images :: images[id].rating
  }

  /** Changing one rating changes the total by the difference, if the id is listed. */
  lemma {:induction false} SumOverUpdate(ratings: map<int, real>, ids: seq<int>, key: int, x: real)
    requires forall k | 0 <= k < |ids| :: ids[k] in ratings
    requires Distinct(ids) && key in ratings
    ensures SumOver(ratings[key := x], ids) == SumOver(ratings, ids) + (if key in ids then x - ratings[key] else 0.0)
  {
    if ids != [] {
      var init, last := ids[..|ids| - 1], ids[|ids| - 1];
      assert ids == init + [last];
      SumOverUpdate(ratings, init, key, x);
    }
  }

  /** The total of 1200 over every listed image. */
  lemma {:induction false} BaselineSum(ids: seq<int>, tracked: set<int>)
    requires forall k | 0 <= k < |ids| :: ids[k] in tracked
    ensures SumOver(Baseline(tracked), ids) == DefaultRating * |ids| as real
  {
    if ids != [] {
      BaselineSum(ids[..|ids| - 1], tracked);
    }
  }

  /** Replaying votes between two different images keeps the total of the ratings. */
  lemma {:induction false} ReplayKeepsSum(num: Numerics, start: map<int, real>, ids: seq<int>, votes: seq<Vote>)
    requires num.Valid() && Distinct(ids)
    requires forall k | 0 <= k < |ids| :: ids[k] in start
    requires forall id | id in start :: id in ids
    requires forall k | 0 <= k < |votes| :: votes[k].winnerId != votes[k].loserId
    ensures SumOver(Replay(num, start, votes), ids) == SumOver(start, ids)
  {
    if votes != [] {
      var prefix, v := votes[..|votes| - 1], votes[|votes| - 1];
      ReplayKeepsSum(num, start, ids, prefix);
      var r := Replay(num, start, prefix);
      if Applies(v, r.Keys) {
        var newRatings := Elo.Create(num, r[v.winnerId], r[v.loserId], Elo.Win, Elo.Lost).GetNewRatings();
        SumOverUpdate(r, ids, v.winnerId, newRatings.0);
        SumOverUpdate(r[v.winnerId := newRatings.0], ids, v.loserId, newRatings.1);
      }
    }
  }

  /**
    After a replay of a ledger with no self-vote, the ratings of all images
    add up to 1200 per image: every applied vote moves rating from the loser
    to the winner and nothing else.
   */
  lemma RatingSumConserved(num: Numerics, images: map<int, Image>, votes: seq<Vote>, ids: seq<int>)
    requires num.Valid() && Replayed(num, images, votes)
    requires Distinct(ids) && (forall k | 0 <= k < |ids| :: ids[k] in images)
    requires forall id | id in images :: id in ids
    requires forall k | 0 <= k < |votes| :: votes[k].winnerId != votes[k].loserId
    ensures SumOver(RatingsOf(images), ids) == DefaultRating * |ids| as real
  {
    var start := Baseline(images.Keys);
    var replayed := Replay(num, start, votes);
    assert forall id | id in images :: RatingsOf(images)[id] == replayed[id];
    assert RatingsOf(images) == replayed;
    ReplayKeepsSum(num, start, ids, votes);
    BaselineSum(ids, images.Keys);
  }

  /**
    The live path through the as-written `update_ratings` breaks the replay:
    after a vote between two stored images, the two counts are one above what
    `_recalculate_ratings` rebuilds from the ledger, since no vote row was
    written.  The next deletion of any image silently drops that vote.
   */
  lemma LiveVoteLostOnReplay(num: Numerics, images: map<int, Image>, votes: seq<Vote>,
                             winnerId: int, loserId: int, newWinnerRating: real, newLoserRating: real)
    requires num.Valid() && Replayed(num, images, votes)
    requires winnerId in images && loserId in images && winnerId != loserId
    ensures !Replayed(num, AfterVote(images, winnerId, loserId, newWinnerRating, newLoserRating), votes)
  {
    var after := AfterVote(images, winnerId, loserId, newWinnerRating, newLoserRating);
    assert after[winnerId].votes != Appearances(winnerId, votes, after.Keys);
  }

  /**
    The first definition of `update_ratings` keeps the replay: when the new
    ratings are the Elo result of the stored ones, the table after the vote is
    exactly what replaying the ledger with the vote appended gives.
   */
  lemma RecordVoteKeepsReplay(num: Numerics, images: map<int, Image>, votes: seq<Vote>,
                              winnerId: int, loserId: int, newWinnerRating: real, newLoserRating: real)
    requires num.Valid() && Replayed(num, images, votes)
    requires winnerId in images && loserId in images && winnerId != loserId
    requires (newWinnerRating, newLoserRating)
          == Elo.Create(num, images[winnerId].rating, images[loserId].rating, Elo.Win, Elo.Lost).GetNewRatings()
    ensures Replayed(num, AfterVote(images, winnerId, loserId, newWinnerRating, newLoserRating),
                     votes + [Vote(winnerId, loserId)])
  {
    var v := Vote(winnerId, loserId);
    var extended := votes + [v];
    assert extended[..|votes|] == votes;
    var after := AfterVote(images, winnerId, loserId, newWinnerRating, newLoserRating);
    var before := Replay(num, Baseline(images.Keys), votes);
    var replayed := ReplayStep(num, before, v);
    assert Replay(num, Baseline(after.Keys), extended) == replayed;
    forall id | id in after
      ensures after[id].rating == replayed[id]
      ensures after[id].votes == Appearances(id, extended, after.Keys)
    {
      assert Appearances(id, extended, after.Keys)
          == Appearances(id, votes, images.Keys) + (if id == winnerId || id == loserId then 1 else 0);
    }
  }
}
