/**
 The retrieval tallies of the two-tower validation (scripts/run_two_tower_offline_validation.py):
 hits, reciprocal ranks, nDCG@10 and the sparse / medium / high cohorts, with unrounded reals and
 the discount of RankingMetrics (there indexed from 0, here by a rank from 1).
 */
module OfflineValidation {
  import opened Basics
  import RankingMetrics

  /** An interaction, as far as it is counted. */
  datatype Row = Row(user: string, time: int)

  /** A positive example: its user, its own time, and what was retrieved for it. */
  datatype Query = Query(target: string, retrieved: seq<string>, user: string, time: int)

  function RankIn(ids: seq<string>, target: string): (r: Option<nat>)
    ensures r.None? <==> target !in ids
    ensures r.Some? ==> 1 <= r.value <= |ids| && ids[r.value - 1] == target && target !in ids[..r.value - 1]
  {
    if ids == [] then None
    else if ids[0] == target then Some(1)
    else
      match RankIn(ids[1..], target)
      case None => None
      case Some(rank) =>
        assert ids[..rank] == [ids[0]] + ids[1..][..rank - 1];
        Some(rank + 1)
  }

  function Rank(q: Query): Option<nat> { RankIn(q.retrieved, q.target) }

  predicate HitAt(rank: Option<nat>, k: nat) { rank.Some? && rank.value <= k }

  predicate BisectLeft(times: seq<int>, t: int, at: nat) {
    at <= |times| && (forall i :: 0 <= i < at ==> times[i] < t) && forall i :: at <= i < |times| ==> times[i] >= t
  }

  function Earlier(times: seq<int>, t: int): nat {
    if times == [] then 0 else (if times[0] < t then 1 else 0) + Earlier(times[1..], t)
  }

  /** The insertion point is the number of strictly earlier times. */
  lemma {:induction false} BisectCountsEarlier(times: seq<int>, t: int, at: nat)
    requires BisectLeft(times, t, at)
    ensures at == Earlier(times, t)
  {
    if times != [] {
      BisectCountsEarlier(times[1..], t, if at == 0 then 0 else at - 1);
    }
  }

  /** `bisect_left` on the user's row times. */
  function InsertionPoint(times: seq<int>, t: int): (at: nat)
    ensures at <= |times|
  {
    if times == [] || times[0] >= t then 0 else 1 + InsertionPoint(times[1..], t)
  }

  ghost predicate Chronological(times: seq<int>) {
    forall i, j :: 0 <= i < j < |times| ==> times[i] <= times[j]
  }

  lemma {:induction false} InsertionPointBisects(times: seq<int>, t: int)
    requires Chronological(times)
    ensures BisectLeft(times, t, InsertionPoint(times, t))
  {
    if times != [] && times[0] < t { InsertionPointBisects(times[1..], t); }
  }

  // ----- each user's row times -----

  function InsertRow(x: Row, rows: seq<Row>): seq<Row> {
    if rows == [] || x.time <= rows[0].time then [x] + rows else [rows[0]] + InsertRow(x, rows[1..])
  }

  /** `sorted(rows, key=lambda r: r.timestamp)`. */
  function SortRows(rows: seq<Row>): seq<Row> {
    if rows == [] then [] else InsertRow(rows[0], SortRows(rows[1..]))
  }

  function TimesOf(rows: seq<Row>, user: string): seq<int> {
    if rows == [] then []
    else if rows[0].user == user then [rows[0].time] + TimesOf(rows[1..], user)
    else TimesOf(rows[1..], user)
  }

  /** The rows of one user that are strictly earlier than `t`, in no order. */
  function EarlierRows(rows: seq<Row>, user: string, t: int): nat {
    if rows == [] then 0
    else (if rows[0].user == user && rows[0].time < t then 1 else 0) + EarlierRows(rows[1..], user, t)
  }

  function TimesFor(grouped: map<string, seq<int>>, user: string): seq<int> {
    if user in grouped then grouped[user] else []
  }

  lemma {:induction false} TimesOfMore(rows: seq<Row>, x: Row, user: string)
    ensures TimesOf(rows + [x], user) == if x.user == user then TimesOf(rows, user) + [x.time] else TimesOf(rows, user)
  {
    if rows != [] {
      TimesOfMore(rows[1..], x, user);
      assert (rows + [x])[1..] == rows[1..] + [x];
    }
  }

  ghost predicate Groups(grouped: map<string, seq<int>>, rows: seq<Row>) {
    forall user :: TimesFor(grouped, user) == TimesOf(rows, user)
  }

  lemma GroupsMore(grouped: map<string, seq<int>>, rows: seq<Row>, x: Row)
    requires Groups(grouped, rows)
    ensures Groups(grouped[x.user := TimesFor(grouped, x.user) + [x.time]], rows + [x])
  {
    var more := grouped[x.user := TimesFor(grouped, x.user) + [x.time]];
    forall user ensures TimesFor(more, user) == TimesOf(rows + [x], user) {
      TimesOfMore(rows, x, user);
      assert TimesFor(grouped, user) == TimesOf(rows, user);
    }
  }

  /** The loop that fills `user_row_ts`. */
  method GroupTimes(rows: seq<Row>) returns (grouped: map<string, seq<int>>)
    ensures forall user :: TimesFor(grouped, user) == TimesOf(SortRows(rows), user)
  {
    var sorted := SortRows(rows);
    grouped := map[];
    for i := 0 to |sorted|
      invariant Groups(grouped, sorted[..i])
    {
      GroupsMore(grouped, sorted[..i], sorted[i]);
      assert sorted[..i + 1] == sorted[..i] + [sorted[i]];
      grouped := grouped[sorted[i].user := TimesFor(grouped, sorted[i].user) + [sorted[i].time]];
    }
    assert sorted[..|sorted|] == sorted;
  }

  ghost predicate RowsChronological(rows: seq<Row>) {
    forall i, j :: 0 <= i < j < |rows| ==> rows[i].time <= rows[j].time
  }

  lemma {:induction false} InsertKeepsOrder(x: Row, rows: seq<Row>, lo: int)
    requires RowsChronological(rows) && x.time >= lo && forall r :: r in rows ==> r.time >= lo
    ensures RowsChronological(InsertRow(x, rows)) && forall r :: r in InsertRow(x, rows) ==> r.time >= lo
  {
    if rows != [] && x.time > rows[0].time {
      InsertKeepsOrder(x, rows[1..], rows[0].time);
      var rest := InsertRow(x, rows[1..]);
      assert forall j :: 0 <= j < |rest| ==> rest[j] in rest;
    }
  }

  lemma {:induction false} SortedIsChronological(rows: seq<Row>, lo: int)
    requires forall r :: r in rows ==> r.time >= lo
    ensures RowsChronological(SortRows(rows)) && forall r :: r in SortRows(rows) ==> r.time >= lo
  {
    if rows != [] {
      SortedIsChronological(rows[1..], lo);
      InsertKeepsOrder(rows[0], SortRows(rows[1..]), lo);
    }
  }

  lemma {:induction false} TimesOfChronological(rows: seq<Row>, user: string)
    requires RowsChronological(rows)
    ensures Chronological(TimesOf(rows, user))
    ensures forall x :: x in TimesOf(rows, user) ==> rows != [] && x >= rows[0].time
  {
    if rows != [] {
      TimesOfChronological(rows[1..], user);
      var rest := TimesOf(rows[1..], user);
      forall j | 0 <= j < |rest| ensures rest[j] >= rows[0].time {
        assert rest[j] in rest;
        assert rows[1..] != [] && rest[j] >= rows[1..][0].time && rows[1..][0] == rows[1];
      }
    }
  }

  lemma {:induction false} TimesCountRows(rows: seq<Row>, user: string, t: int)
    ensures Earlier(TimesOf(rows, user), t) == EarlierRows(rows, user, t)
  {
    if rows != [] {
      TimesCountRows(rows[1..], user, t);
      if rows[0].user == user {
        assert TimesOf(rows, user)[1..] == TimesOf(rows[1..], user);
      }
    }
  }

  lemma {:induction false} InsertCountsRow(x: Row, rows: seq<Row>, user: string, t: int)
    ensures EarlierRows(InsertRow(x, rows), user, t) == EarlierRows([x] + rows, user, t)
  {
    assert ([x] + rows)[1..] == rows;
    if rows != [] && x.time > rows[0].time {
      InsertCountsRow(x, rows[1..], user, t);
      assert ([x] + rows[1..])[1..] == rows[1..];
      assert InsertRow(x, rows)[1..] == InsertRow(x, rows[1..]);
    }
  }

  lemma {:induction false} SortCountsRows(rows: seq<Row>, user: string, t: int)
    ensures EarlierRows(SortRows(rows), user, t) == EarlierRows(rows, user, t)
  {
    if rows != [] {
      SortCountsRows(rows[1..], user, t);
      InsertCountsRow(rows[0], SortRows(rows[1..]), user, t);
      assert ([rows[0]] + SortRows(rows[1..]))[1..] == SortRows(rows[1..]);
    }
  }

  /** What one query adds to the cohort loop. */
  datatype Seen = Seen(prior: int, rank: Option<nat>)

  function SeenFor(rows: seq<Row>, q: Query): Seen {
    Seen(InsertionPoint(TimesOf(SortRows(rows), q.user), q.time), Rank(q))
  }

  function SeenOf(rows: seq<Row>, queries: seq<Query>): seq<Seen> {
    seq(|queries|, i requires 0 <= i < |queries| => SeenFor(rows, queries[i]))
  }

  lemma PriorOfQuery(rows: seq<Row>, q: Query)
    ensures SeenFor(rows, q).prior == EarlierRows(rows, q.user, q.time)
  {
    var sorted := SortRows(rows);
    SortedHere(rows);
    TimesOfChronological(sorted, q.user);
    InsertionPointBisects(TimesOf(sorted, q.user), q.time);
    BisectCountsEarlier(TimesOf(sorted, q.user), q.time, SeenFor(rows, q).prior);
    TimesCountRows(sorted, q.user, q.time);
    SortCountsRows(rows, q.user, q.time);
  }

  lemma SortedHere(rows: seq<Row>)
    ensures RowsChronological(SortRows(rows))
  {
    var lo := Lowest(rows);
    SortedIsChronological(rows, lo);
  }

  function Lowest(rows: seq<Row>): (lo: int)
    ensures forall r :: r in rows ==> r.time >= lo
  {
    if rows == [] then 0
    else
      var rest := Lowest(rows[1..]);
      assert forall r :: r in rows ==> r == rows[0] || r in rows[1..];
      if rows[0].time <= rest then rows[0].time else rest
  }

  /** The prior count of each query is the number of its user's strictly earlier rows, in whatever
      order the rows came. */
  lemma PriorCountsEarlierRows(rows: seq<Row>, queries: seq<Query>)
    ensures forall i :: 0 <= i < |queries| ==>
      SeenOf(rows, queries)[i].prior == EarlierRows(rows, queries[i].user, queries[i].time)
  {
    forall i | 0 <= i < |queries|
      ensures SeenOf(rows, queries)[i].prior == EarlierRows(rows, queries[i].user, queries[i].time)
    {
      PriorOfQuery(rows, queries[i]);
    }
  }

  // ----- what the loop adds up -----

  function Ranks(queries: seq<Query>): seq<Option<nat>> {
    seq(|queries|, i requires 0 <= i < |queries| => Rank(queries[i]))
  }

  function Hits(ranks: seq<Option<nat>>, k: nat): nat {
    if ranks == [] then 0 else
    Hits(ranks[..|ranks| - 1], k) + if HitAt(ranks[|ranks| - 1], k) then 1 else 0
  }

  function Reciprocal(rank: Option<nat>): real {
    if rank.Some? && rank.value > 0 then 1.0 / rank.value as real else 0.0
  }

  function Reciprocals(ranks: seq<Option<nat>>): real {
    if ranks == [] then 0.0 else Reciprocals(ranks[..|ranks| - 1]) + Reciprocal(ranks[|ranks| - 1])
  }

  function GainOf(rank: Option<nat>, w: nat -> real): real {
    if HitAt(rank, 10) && rank.value > 0 then w(rank.value - 1) else 0.0
  }

  function Gains(ranks: seq<Option<nat>>, w: nat -> real): real {
    if ranks == [] then 0.0 else Gains(ranks[..|ranks| - 1], w) + GainOf(ranks[|ranks| - 1], w)
  }

  datatype Tally = Tally(hits5: nat, hits10: nat, hits20: nat, reciprocals: real, gains: real,
                         ranks: seq<Option<nat>>, seen: seq<Seen>)

  /** One more rank. */
  lemma OneMoreRank(ranks: seq<Option<nat>>, rank: Option<nat>, w: nat -> real)
    ensures Hits(ranks + [rank], 5) == Hits(ranks, 5) + if HitAt(rank, 5) then 1 else 0
    ensures Hits(ranks + [rank], 10) == Hits(ranks, 10) + if HitAt(rank, 10) then 1 else 0
    ensures Hits(ranks + [rank], 20) == Hits(ranks, 20) + if HitAt(rank, 20) then 1 else 0
    ensures Reciprocals(ranks + [rank]) == Reciprocals(ranks) + Reciprocal(rank)
    ensures Gains(ranks + [rank], w) == Gains(ranks, w) + GainOf(rank, w)
  {
    assert (ranks + [rank])[..|ranks|] == ranks;
  }

  lemma OneMoreQuery(rows: seq<Row>, queries: seq<Query>, i: nat)
    requires i < |queries|
    ensures Ranks(queries[..i + 1]) == Ranks(queries[..i]) + [Rank(queries[i])]
    ensures SeenOf(rows, queries[..i + 1]) == SeenOf(rows, queries[..i]) + [SeenFor(rows, queries[i])]
  {
  }

  /** The loop over the positive queries. */
  method TallyQueries(rows: seq<Row>, queries: seq<Query>, w: nat -> real) returns (t: Tally)
    ensures t.ranks == Ranks(queries) && t.seen == SeenOf(rows, queries)
    ensures t.hits5 == Hits(t.ranks, 5) && t.hits10 == Hits(t.ranks, 10) && t.hits20 == Hits(t.ranks, 20)
    ensures t.reciprocals == Reciprocals(t.ranks) && t.gains == Gains(t.ranks, w)
  {
    var times := GroupTimes(rows);
    var hits5, hits10, hits20, reciprocals, gains := 0, 0, 0, 0.0, 0.0;
    var ranks: seq<Option<nat>> := [];
    var seen: seq<Seen> := [];
    for i := 0 to |queries|
      invariant ranks == Ranks(queries[..i]) && seen == SeenOf(rows, queries[..i])
      invariant hits5 == Hits(ranks, 5) && hits10 == Hits(ranks, 10) && hits20 == Hits(ranks, 20)
      invariant reciprocals == Reciprocals(ranks) && gains == Gains(ranks, w)
    {
      var rank := Rank(queries[i]);
      OneMoreRank(ranks, rank, w);
      OneMoreQuery(rows, queries, i);
      hits5 := hits5 + if HitAt(rank, 5) then 1 else 0;
      hits10 := hits10 + if HitAt(rank, 10) then 1 else 0;
      hits20 := hits20 + if HitAt(rank, 20) then 1 else 0;
      reciprocals := reciprocals + Reciprocal(rank);
      if HitAt(rank, 10) {
        gains := gains + w(rank.value - 1);
      }
      ranks := ranks + [rank];
      seen := seen + [Seen(InsertionPoint(TimesFor(times, queries[i].user), queries[i].time), rank)];
    }
    assert queries[..|queries|] == queries;
    t := Tally(hits5, hits10, hits20, reciprocals, gains, ranks, seen);
  }

  /** As `retrieve_top_k(..., 20)` gives them. */
  predicate TopTwenty(ranks: seq<Option<nat>>) {
    forall rank :: rank in ranks && rank.Some? ==> 1 <= rank.value <= 20
  }

  lemma RanksAreTopTwenty(queries: seq<Query>)
    requires forall q :: q in queries ==> |q.retrieved| <= 20
    ensures TopTwenty(Ranks(queries))
  {
    forall rank | rank in Ranks(queries) && rank.Some? ensures 1 <= rank.value <= 20 {
      var i :| 0 <= i < |queries| && rank == Rank(queries[i]);
      assert queries[i] in queries;
    }
  }

  lemma ReciprocalBounds(rank: nat, k: nat)
    requires 1 <= rank <= k
    ensures 1.0 <= k as real * Reciprocal(Some(rank)) && Reciprocal(Some(rank)) <= 1.0
    ensures Reciprocal(Some(rank)) == 1.0 <==> rank == 1
  {
    var x := Reciprocal(Some(rank));
    assert x * rank as real == 1.0;
    assert x > 0.0;
    assert (k - rank) as real * x >= 0.0;
    assert k as real * x == rank as real * x + (k - rank) as real * x;
    if rank > 1 {
      assert (rank - 1) as real * x > 0.0;
      assert x == 1.0 - (rank - 1) as real * x;
    }
  }

  lemma {:induction false} HitsGrow(ranks: seq<Option<nat>>, j: nat, k: nat)
    requires j <= k
    ensures Hits(ranks, j) <= Hits(ranks, k) <= |ranks|
  {
    if ranks != [] { HitsGrow(ranks[..|ranks| - 1], j, k); }
  }

  /** A named product, so that proofs about sums stay linear. */
  function Scaled(k: nat, x: real): real { k as real * x }

  lemma ScaledSum(k: nat, x: real, y: real)
    ensures Scaled(k, x + y) == Scaled(k, x) + Scaled(k, y)
  {}

  lemma ReciprocalOfHit(rank: Option<nat>, k: nat)
    requires rank.Some? ==> rank.value >= 1
    ensures (if HitAt(rank, k) then 1.0 else 0.0) <= Scaled(k, Reciprocal(rank))
  {
    if HitAt(rank, k) {
      ReciprocalBounds(rank.value, k);
    } else if rank.Some? {
      ReciprocalBounds(rank.value, rank.value);
      assert Reciprocal(rank) >= 0.0;
    }
  }

  /** At any cut-off the reciprocal ranks add up to at least hits / k. */
  lemma {:induction false} ReciprocalsCoverHits(ranks: seq<Option<nat>>, k: nat)
    requires TopTwenty(ranks)
    ensures Hits(ranks, k) as real <= Scaled(k, Reciprocals(ranks))
  {
    if ranks != [] {
      var shorter, last := ranks[..|ranks| - 1], ranks[|ranks| - 1];
      assert last in ranks;
      ReciprocalsCoverHits(shorter, k);
      ReciprocalOfHit(last, k);
      ScaledSum(k, Reciprocals(shorter), Reciprocal(last));
    }
  }

  /** They add up to at most the hits at 20, and to exactly those when every target found is found
      first, and only then. */
  lemma {:induction false} ReciprocalsAndHits(ranks: seq<Option<nat>>)
    requires TopTwenty(ranks)
    ensures Reciprocals(ranks) <= Hits(ranks, 20) as real
    ensures Reciprocals(ranks) == Hits(ranks, 20) as real
            <==> forall rank :: rank in ranks && rank.Some? ==> rank.value == 1
  {
    if ranks != [] {
      var shorter, last := ranks[..|ranks| - 1], ranks[|ranks| - 1];
      assert ranks == shorter + [last];
      assert last in ranks;
      ReciprocalsAndHits(shorter);
      if last.Some? {
        ReciprocalBounds(last.value, 20);
      }
    }
  }

  lemma {:induction false} GainsAndHits(ranks: seq<Option<nat>>, w: nat -> real)
    requires TopTwenty(ranks) && RankingMetrics.Discount(w)
    ensures Gains(ranks, w) <= Hits(ranks, 10) as real
    ensures Gains(ranks, w) == Hits(ranks, 10) as real
            <==> forall rank :: rank in ranks && HitAt(rank, 10) ==> rank.value == 1
  {
    if ranks != [] {
      var shorter, last := ranks[..|ranks| - 1], ranks[|ranks| - 1];
      assert ranks == shorter + [last];
      GainsAndHits(shorter, w);
      assert last in ranks;
      if HitAt(last, 10) && last.value > 1 {
        assert w(last.value - 1) < w(0);
      }
    }
  }

  /** A hit at `k` is a target among the first `k` retrieved. */
  lemma HitMeansRetrieved(q: Query, k: nat)
    ensures HitAt(Rank(q), k) <==> q.target in if k <= |q.retrieved| then q.retrieved[..k] else q.retrieved
  {
    var rank := Rank(q);
    if rank.Some? && k <= |q.retrieved| {
      if rank.value <= k {
        assert q.retrieved[..k][rank.value - 1] == q.target;
      } else {
        assert forall i :: 0 <= i < k ==> q.retrieved[..k][i] == q.retrieved[..rank.value - 1][i];
      }
    }
  }

  /** Queries whose target is at rank `p`. */
  function CountAt(ranks: seq<Option<nat>>, p: nat): nat {
    if ranks == [] then 0 else
    CountAt(ranks[..|ranks| - 1], p) + if ranks[|ranks| - 1] == Some(p) then 1 else 0
  }

  /** Ranks from one up to `p`, each with its number of queries times what a query there is worth. */
  function Weighed(ranks: seq<Option<nat>>, worth: nat -> real, p: nat): real {
    if p == 0 then 0.0 else Weighed(ranks, worth, p - 1) + Times(CountAt(ranks, p), worth(p))
  }

  function Times(n: nat, x: real): real { n as real * x }

  lemma {:induction false} CountIsHitsMore(ranks: seq<Option<nat>>, p: nat)
    requires p > 0
    ensures CountAt(ranks, p) == Hits(ranks, p) - Hits(ranks, p - 1)
  {
    if ranks != [] { CountIsHitsMore(ranks[..|ranks| - 1], p); }
  }

  lemma OneTimesMore(n: nat, x: real)
    ensures Times(n + 1, x) == Times(n, x) + x
  {
  }

  lemma {:induction false} WeighedMore(ranks: seq<Option<nat>>, rank: Option<nat>, worth: nat -> real, p: nat)
    ensures Weighed(ranks + [rank], worth, p) ==
      Weighed(ranks, worth, p) + if rank.Some? && 1 <= rank.value <= p then worth(rank.value) else 0.0
  {
    if p > 0 {
      WeighedMore(ranks, rank, worth, p - 1);
      assert (ranks + [rank])[..|ranks|] == ranks;
      OneTimesMore(CountAt(ranks, p), worth(p));
    }
  }

  lemma {:induction false} WeighedNothing(worth: nat -> real, p: nat)
    ensures Weighed([], worth, p) == 0.0
  {
    if p > 0 { WeighedNothing(worth, p - 1); }
  }

  /** The reciprocal ranks add up to one over p for every query whose target is at rank p ... */
  lemma {:induction false} ReciprocalsAreWeighed(ranks: seq<Option<nat>>, worth: nat -> real)
    requires TopTwenty(ranks) && forall p: nat :: p >= 1 ==> worth(p) == 1.0 / p as real
    ensures Reciprocals(ranks) == Weighed(ranks, worth, 20)
  {
    if ranks == [] {
      WeighedNothing(worth, 20);
    } else {
      var shorter, last := ranks[..|ranks| - 1], ranks[|ranks| - 1];
      assert ranks == shorter + [last] && last in ranks;
      ReciprocalsAreWeighed(shorter, worth);
      WeighedMore(shorter, last, worth, 20);
    }
  }

  /** ... and the gains to the discount of p, down to rank ten. */
  lemma {:induction false} GainsAreWeighed(ranks: seq<Option<nat>>, w: nat -> real, worth: nat -> real)
    requires TopTwenty(ranks) && forall p: nat :: p >= 1 ==> worth(p) == w(p - 1)
    ensures Gains(ranks, w) == Weighed(ranks, worth, 10)
  {
    if ranks == [] {
      WeighedNothing(worth, 10);
    } else {
      var shorter, last := ranks[..|ranks| - 1], ranks[|ranks| - 1];
      assert ranks == shorter + [last] && last in ranks;
      GainsAreWeighed(shorter, w, worth);
      WeighedMore(shorter, last, worth, 10);
    }
  }

  /** In particular, with every target found at one rank, that rank times the sum is the number found. */
  lemma {:induction false} AllAtOneRank(ranks: seq<Option<nat>>, p: nat)
    requires 1 <= p <= 20 && forall rank :: rank in ranks && rank.Some? ==> rank.value == p
    ensures Scaled(p, Reciprocals(ranks)) == Hits(ranks, 20) as real
  {
    if ranks != [] {
      var shorter, last := ranks[..|ranks| - 1], ranks[|ranks| - 1];
      assert last in ranks;
      AllAtOneRank(shorter, p);
      ScaledSum(p, Reciprocals(shorter), Reciprocal(last));
      if last.Some? { ScaledReciprocal(p); }
    }
  }

  lemma ScaledReciprocal(p: nat)
    requires p >= 1
    ensures Scaled(p, Reciprocal(Some(p))) == 1.0
  {
  }

  function Average(x: real, n: nat): real
    requires n > 0
  { x / n as real }

  lemma AverageKeepsOrder(x: real, y: real, n: nat)
    requires n > 0
    ensures Average(x, n) <= Average(y, n) <==> x <= y
  {
    var a, b, d := Average(x, n), Average(y, n), n as real;
    assert a * d == x && b * d == y;
    if a <= b { assert (b - a) * d >= 0.0; } else { assert (a - b) * d > 0.0; }
  }

  lemma AverageOfAll(n: nat)
    requires n > 0
    ensures Average(n as real, n) == 1.0
  {
  }

  /** The printed metrics agree with each other on every non-empty list of queries: recall grows
      with the cut-off, */
  lemma RecallsAgree(queries: seq<Query>)
    requires queries != []
    ensures var n, r := |queries|, Ranks(queries);
      Average(Hits(r, 5) as real, n) <= Average(Hits(r, 10) as real, n) <= Average(Hits(r, 20) as real, n) <= 1.0
  {
    var n, r := |queries|, Ranks(queries);
    HitsGrow(r, 5, 10);
    HitsGrow(r, 10, 20);
    AverageKeepsOrder(Hits(r, 5) as real, Hits(r, 10) as real, n);
    AverageKeepsOrder(Hits(r, 10) as real, Hits(r, 20) as real, n);
    AverageKeepsOrder(Hits(r, 20) as real, n as real, n);
    AverageOfAll(n);
  }

  /** MRR lies between Recall@20 / 20 and Recall@20, and is Recall@20 exactly when every target
      found is found first, */
  lemma MrrAgrees(queries: seq<Query>)
    requires queries != [] && forall q :: q in queries ==> |q.retrieved| <= 20
    ensures var n, r := |queries|, Ranks(queries);
      && Average(Hits(r, 20) as real / 20.0, n) <= Average(Reciprocals(r), n) <= Average(Hits(r, 20) as real, n)
      && (Average(Reciprocals(r), n) == Average(Hits(r, 20) as real, n)
          <==> forall rank :: rank in r && rank.Some? ==> rank.value == 1)
  {
    var n, r := |queries|, Ranks(queries);
    RanksAreTopTwenty(queries);
    ReciprocalsAndHits(r);
    ReciprocalsCoverHits(r, 20);
    AverageKeepsOrder(Hits(r, 20) as real / 20.0, Reciprocals(r), n);
    AverageKeepsOrder(Reciprocals(r), Hits(r, 20) as real, n);
    AverageKeepsOrder(Hits(r, 20) as real, Reciprocals(r), n);
  }

  /** and nDCG@10 is at most Recall@10, and is it exactly when every target in the top ten is first. */
  lemma NdcgAgrees(queries: seq<Query>, w: nat -> real)
    requires queries != [] && RankingMetrics.Discount(w)
    requires forall q :: q in queries ==> |q.retrieved| <= 20
    ensures var n, r := |queries|, Ranks(queries);
      && Average(Gains(r, w), n) <= Average(Hits(r, 10) as real, n)
      && (Average(Gains(r, w), n) == Average(Hits(r, 10) as real, n)
          <==> forall rank :: rank in r && HitAt(rank, 10) ==> rank.value == 1)
  {
    var n, r := |queries|, Ranks(queries);
    RanksAreTopTwenty(queries);
    GainsAndHits(r, w);
    AverageKeepsOrder(Gains(r, w), Hits(r, 10) as real, n);
    AverageKeepsOrder(Hits(r, 10) as real, Gains(r, w), n);
  }

  // ----- cohorts -----

  datatype Cohort = Sparse | Medium | High

  datatype Stats = Stats(n: nat, hit10: nat, hit20: nat)

  lemma SortDescends(counts: seq<int>)
    ensures RankingMetrics.Descending(RankingMetrics.SortDesc(counts))
    ensures |RankingMetrics.SortDesc(counts)| == |counts|
  {
    RankingMetrics.SortDescSorts(counts);
  }

  /** `sorted(counts)[at]`, read off the descending sort. */
  function Ascending(counts: seq<int>, at: nat): int
    requires at < |counts|
  {
    SortDescends(counts);
    RankingMetrics.SortDesc(counts)[|counts| - 1 - at]
  }

  function Priors(queries: seq<Seen>): seq<int> {
    seq(|queries|, i requires 0 <= i < |queries| => queries[i].prior)
  }

  function Third(queries: seq<Seen>): int {
    if queries == [] then 0 else Ascending(Priors(queries), |queries| / 3)
  }

  function TwoThirds(queries: seq<Seen>): int {
    if queries == [] then 0 else Ascending(Priors(queries), 2 * |queries| / 3)
  }

  function CohortOf(prior: int, p33: int, p66: int): Cohort {
    if prior <= p33 then Sparse else if prior <= p66 then Medium else High
  }

  /** The cohort's own queries, in order. */
  function Members(queries: seq<Seen>, p33: int, p66: int, c: Cohort): seq<Seen> {
    if queries == [] then [] else
    var last := queries[|queries| - 1];
    var rest := Members(queries[..|queries| - 1], p33, p66, c);
    if CohortOf(last.prior, p33, p66) == c then rest + [last] else rest
  }

  function RanksOf(queries: seq<Seen>): seq<Option<nat>> {
    seq(|queries|, i requires 0 <= i < |queries| => queries[i].rank)
  }

  function HitsOf(queries: seq<Seen>, k: nat): nat { Hits(RanksOf(queries), k) }

  lemma HitsOfMore(queries: seq<Seen>, q: Seen, k: nat)
    ensures HitsOf(queries + [q], k) == HitsOf(queries, k) + if HitAt(q.rank, k) then 1 else 0
  {
    var more := RanksOf(queries + [q]);
    assert more[..|more| - 1] == RanksOf(queries);
  }

  function StatsOf(queries: seq<Seen>): Stats {
    Stats(|queries|, HitsOf(queries, 10), HitsOf(queries, 20))
  }

  function Lookup(stats: map<Cohort, Stats>, c: Cohort): Stats {
    if c in stats then stats[c] else Stats(0, 0, 0)
  }

  /** The cohort loop over `zip(per_query_prior_count, per_query_rank)`. */
  method CohortQuality(queries: seq<Seen>) returns (stats: map<Cohort, Stats>)
    ensures forall c :: var members := Members(queries, Third(queries), TwoThirds(queries), c);
      && Lookup(stats, c).n == |members|
      && Lookup(stats, c).hit10 == HitsOf(members, 10) && Lookup(stats, c).hit20 == HitsOf(members, 20)
    ensures forall c :: Lookup(stats, c) == StatsOf(Members(queries, Third(queries), TwoThirds(queries), c))
  {
    var p33, p66 := Third(queries), TwoThirds(queries);
    stats := map[];
    for i := 0 to |queries|
      invariant forall c :: Lookup(stats, c) == StatsOf(Members(queries[..i], p33, p66, c))
    {
      var q := queries[i];
      var cohort := CohortOf(q.prior, p33, p66);
      assert queries[..i + 1][..i] == queries[..i];
      HitsOfMore(Members(queries[..i], p33, p66, cohort), q, 10);
      HitsOfMore(Members(queries[..i], p33, p66, cohort), q, 20);
      var s := Lookup(stats, cohort);
      stats := stats[cohort := Stats(s.n + 1, s.hit10 + (if HitAt(q.rank, 10) then 1 else 0),
                                     s.hit20 + if HitAt(q.rank, 20) then 1 else 0)];
    }
    assert queries[..|queries|] == queries;
  }

  /** The cohorts partition the queries, whatever the thresholds, */
  lemma {:induction false} CohortsPartition(queries: seq<Seen>, p33: int, p66: int)
    ensures var s, m, h := Members(queries, p33, p66, Sparse), Members(queries, p33, p66, Medium), Members(queries, p33, p66, High);
      multiset(s) + multiset(m) + multiset(h) == multiset(queries) && |s| + |m| + |h| == |queries|
  {
    if queries != [] {
      var shorter, last := queries[..|queries| - 1], queries[|queries| - 1];
      assert queries == shorter + [last];
      CohortsPartition(shorter, p33, p66);
    }
  }

  /** and their hits at any cut-off add up to the overall ones. */
  lemma {:induction false} CohortHitsAddUp(queries: seq<Seen>, p33: int, p66: int, k: nat)
    ensures HitsOf(Members(queries, p33, p66, Sparse), k) + HitsOf(Members(queries, p33, p66, Medium), k)
            + HitsOf(Members(queries, p33, p66, High), k) == HitsOf(queries, k)
  {
    if queries != [] {
      var shorter, last := queries[..|queries| - 1], queries[|queries| - 1];
      assert queries == shorter + [last];
      CohortHitsAddUp(shorter, p33, p66, k);
      HitsOfMore(shorter, last, k);
      HitsOfMore(Members(shorter, p33, p66, CohortOf(last.prior, p33, p66)), last, k);
    }
  }

  /** So the cohort table of a run's own tally adds up to that tally. */
  lemma CohortTableAddsUp(rows: seq<Row>, queries: seq<Query>, p33: int, p66: int, k: nat)
    ensures var seen := SeenOf(rows, queries);
      HitsOf(Members(seen, p33, p66, Sparse), k) + HitsOf(Members(seen, p33, p66, Medium), k)
        + HitsOf(Members(seen, p33, p66, High), k) == Hits(Ranks(queries), k)
  {
    CohortHitsAddUp(SeenOf(rows, queries), p33, p66, k);
    assert RanksOf(SeenOf(rows, queries)) == Ranks(queries);
  }

  // ----- the cohorts are terciles -----

  function AtMost(counts: seq<int>, p: int): nat {
    if counts == [] then 0 else (if counts[0] <= p then 1 else 0) + AtMost(counts[1..], p)
  }

  lemma {:induction false} InsertCounts(x: int, s: seq<int>, p: int)
    ensures AtMost(RankingMetrics.Insert(x, s), p) == AtMost(s, p) + if x <= p then 1 else 0
  {
    if s == [] || x >= s[0] {
      assert ([x] + s)[1..] == s;
    } else {
      InsertCounts(x, s[1..], p);
      assert ([s[0]] + RankingMetrics.Insert(x, s[1..]))[1..] == RankingMetrics.Insert(x, s[1..]);
    }
  }

  lemma {:induction false} SortCounts(s: seq<int>, p: int)
    ensures AtMost(RankingMetrics.SortDesc(s), p) == AtMost(s, p)
  {
    if s != [] {
      SortCounts(s[1..], p);
      InsertCounts(s[0], RankingMetrics.SortDesc(s[1..]), p);
    }
  }

  lemma {:induction false} TailCounts(s: seq<int>, k: nat, p: int)
    requires RankingMetrics.Descending(s) && k < |s| && s[k] <= p
    ensures AtMost(s, p) >= |s| - k
  {
    if k > 0 {
      TailCounts(s[1..], k - 1, p);
    } else if |s| > 1 {
      TailCounts(s[1..], 0, p);
    }
  }

  lemma {:induction false} SparseIsAtMost(queries: seq<Seen>, p33: int, p66: int)
    ensures |Members(queries, p33, p66, Sparse)| == AtMost(Priors(queries), p33)
    ensures p33 <= p66 ==>
      |Members(queries, p33, p66, Sparse)| + |Members(queries, p33, p66, Medium)| == AtMost(Priors(queries), p66)
  {
    if queries != [] {
      var shorter, last := queries[..|queries| - 1], queries[|queries| - 1];
      SparseIsAtMost(shorter, p33, p66);
      assert Priors(queries) == Priors(shorter) + [last.prior];
      AtMostOfMore(Priors(shorter), last.prior, p33);
      AtMostOfMore(Priors(shorter), last.prior, p66);
    }
  }

  lemma {:induction false} AtMostOfMore(s: seq<int>, x: int, p: int)
    ensures AtMost(s + [x], p) == AtMost(s, p) + if x <= p then 1 else 0
  {
    if s != [] {
      AtMostOfMore(s[1..], x, p);
      assert (s + [x])[1..] == s[1..] + [x];
    }
  }

  lemma ThresholdCovers(counts: seq<int>, at: nat)
    requires at < |counts|
    ensures AtMost(counts, Ascending(counts, at)) >= at + 1
  {
    SortDescends(counts);
    TailCounts(RankingMetrics.SortDesc(counts), |counts| - 1 - at, Ascending(counts, at));
    SortCounts(counts, Ascending(counts, at));
  }

  lemma ThresholdsOrdered(counts: seq<int>, i: nat, j: nat)
    requires i <= j < |counts|
    ensures Ascending(counts, i) <= Ascending(counts, j)
  {
    SortDescends(counts);
  }

  /** The thresholds cut the run's own queries into terciles: more than a third are sparse, and
      fewer than a third are high, however many prior counts tie. */
  lemma CohortsAreTerciles(queries: seq<Seen>)
    requires queries != []
    ensures var n := |queries|;
      && Third(queries) <= TwoThirds(queries)
      && 3 * |Members(queries, Third(queries), TwoThirds(queries), Sparse)| > n
      && 3 * |Members(queries, Third(queries), TwoThirds(queries), High)| < n
  {
    var n, counts := |queries|, Priors(queries);
    ThresholdCovers(counts, n / 3);
    ThresholdCovers(counts, 2 * n / 3);
    ThresholdsOrdered(counts, n / 3, 2 * n / 3);
    SparseIsAtMost(queries, Third(queries), TwoThirds(queries));
    CohortsPartition(queries, Third(queries), TwoThirds(queries));
  }

  function Below(counts: seq<int>, p: int): nat {
    AtMost(counts, p - 1)
  }

  lemma {:induction false} HeadCounts(s: seq<int>, k: nat, p: int)
    requires RankingMetrics.Descending(s) && k < |s| && s[k] > p
    ensures AtMost(s, p) <= |s| - 1 - k
  {
    if k > 0 {
      HeadCounts(s[1..], k - 1, p);
    } else {
      AtMostLength(s[1..], p);
    }
  }

  lemma {:induction false} AtMostLength(s: seq<int>, p: int)
    ensures AtMost(s, p) <= |s|
  {
    if s != [] { AtMostLength(s[1..], p); }
  }

  lemma BelowKth(s: seq<int>, k: nat)
    requires RankingMetrics.Descending(s) && k < |s|
    ensures AtMost(s, s[k] - 1) <= |s| - 1 - k
  {
    HeadCounts(s, k, s[k] - 1);
  }

  lemma ThresholdBelow(counts: seq<int>, at: nat)
    requires at < |counts|
    ensures Below(counts, Ascending(counts, at)) <= at
  {
    SortDescends(counts);
    BelowKth(RankingMetrics.SortDesc(counts), |counts| - 1 - at);
    SortCounts(counts, Ascending(counts, at) - 1);
  }

  /** The thresholds are the order statistics of the run's own counts: at most a third (two thirds) of
      them are below, and more than that are at or below. */
  lemma ThresholdIsOrderStatistic(counts: seq<int>, at: nat)
    requires at < |counts|
    ensures Below(counts, Ascending(counts, at)) <= at < AtMost(counts, Ascending(counts, at))
  {
    ThresholdCovers(counts, at);
    ThresholdBelow(counts, at);
  }

  lemma ThresholdsAreThirds(queries: seq<Seen>)
    requires queries != []
    ensures var n, counts := |queries|, Priors(queries);
      && Below(counts, Third(queries)) <= n / 3 < AtMost(counts, Third(queries))
      && Below(counts, TwoThirds(queries)) <= 2 * n / 3 < AtMost(counts, TwoThirds(queries))
  {
    ThresholdIsOrderStatistic(Priors(queries), |queries| / 3);
    ThresholdIsOrderStatistic(Priors(queries), 2 * |queries| / 3);
  }

  /** Who is in which cohort. */
  lemma {:induction false} MembersBySpelling(queries: seq<Seen>, p33: int, p66: int, c: Cohort, q: Seen)
    ensures q in Members(queries, p33, p66, c) <==>
      q in queries && match c
                      case Sparse => q.prior <= p33
                      case Medium => p33 < q.prior <= p66
                      case High => q.prior > p33 && q.prior > p66
  {
    if queries != [] {
      var shorter, last := queries[..|queries| - 1], queries[|queries| - 1];
      assert queries == shorter + [last];
      MembersBySpelling(shorter, p33, p66, c, q);
    }
  }
}
