/**
 LIVE candidate generation (`generate_live` in app/api/candidate_routes.py): six priority pools,
 a quota per pool, no stream twice, a fill phase and a truncation.
 */
module LiveCandidates {

  datatype Source =
    FOLLOWED_CREATOR | PREFERRED_LIVE_CATEGORY | TRENDING_LIVE | REGION_MATCH | NEW_LIVE | EXPLORATION

  const LIVE_SOURCES: seq<Source> :=
    [FOLLOWED_CREATOR, PREFERRED_LIVE_CATEGORY, TRENDING_LIVE, REGION_MATCH, NEW_LIVE, EXPLORATION]

  datatype Stream = Stream(
    id: string, category: string, active: bool, viewers: nat, growthRate: real, ageMinutes: real,
    creatorFollowed: bool, regionMatch: bool, interactions: nat)

  datatype Entry = Entry(stream: Stream, source: Source)

  // ----- sorted(..., reverse=True) -----

  function Insert(x: Stream, s: seq<Stream>, key: Stream -> nat): seq<Stream> {
    if s == [] || key(x) >= key(s[0]) then [x] + s else [s[0]] + Insert(x, s[1..], key)
  }

  /** Descending by `key`; equal keys keep their order. */
  function SortDesc(s: seq<Stream>, key: Stream -> nat): seq<Stream> {
    if s == [] then [] else Insert(s[0], SortDesc(s[1..], key), key)
  }

  ghost predicate Earlier(s: seq<Stream>, y: Stream, x: Stream) {
    exists i, j :: 0 <= i < j < |s| && s[i] == y && s[j] == x
  }

  /** `y` comes before `x` in a stable descending sort of `s`. */
  ghost predicate Beats(s: seq<Stream>, key: Stream -> nat, y: Stream, x: Stream) {
    key(y) > key(x) || (key(y) == key(x) && Earlier(s, y, x))
  }

  ghost predicate Ordered(s: seq<Stream>, key: Stream -> nat, t: seq<Stream>) {
    forall i, j | 0 <= i < j < |t| :: Beats(s, key, t[i], t[j])
  }

  lemma {:induction false} InsertKeepsElements(x: Stream, s: seq<Stream>, key: Stream -> nat)
    ensures |Insert(x, s, key)| == |s| + 1
    ensures forall y :: y in Insert(x, s, key) <==> y == x || y in s
  {
    if s != [] && key(x) < key(s[0]) {
      InsertKeepsElements(x, s[1..], key);
      assert forall y :: y in s <==> y == s[0] || y in s[1..];
    }
  }

  lemma {:induction false} InsertOrders(s: seq<Stream>, t: seq<Stream>, key: Stream -> nat)
    requires s != [] && Ordered(s, key, t) && forall y | y in t :: y in s[1..]
    ensures Ordered(s, key, Insert(s[0], t, key))
  {
    var x := s[0];
    if t != [] && key(x) < key(t[0]) {
      InsertOrders(s, t[1..], key);
      InsertKeepsElements(x, t[1..], key);
      var u := Insert(x, t[1..], key);
      forall j | 0 <= j < |u| ensures Beats(s, key, t[0], u[j]) {
        assert u[j] in u;
        if u[j] != x { var k :| 0 <= k < |t[1..]| && t[1..][k] == u[j]; assert t[k + 1] == u[j]; }
      }
    } else {
      forall j | 0 <= j < |t| ensures Beats(s, key, x, t[j]) {
        if j > 0 { assert Beats(s, key, t[0], t[j]); }
        assert t[j] in s[1..];
        var k :| 0 <= k < |s[1..]| && s[1..][k] == t[j];
        assert s[0] == x && s[k + 1] == t[j];
      }
    }
  }

  /** The sort keeps exactly its elements and orders them stably. */
  lemma {:induction false} SortDescOrders(s: seq<Stream>, key: Stream -> nat)
    ensures |SortDesc(s, key)| == |s|
    ensures forall y :: y in SortDesc(s, key) <==> y in s
    ensures Ordered(s, key, SortDesc(s, key))
  {
    if s != [] {
      var t := SortDesc(s[1..], key);
      SortDescOrders(s[1..], key);
      InsertKeepsElements(s[0], t, key);
      forall i, j | 0 <= i < j < |t| ensures Beats(s, key, t[i], t[j]) {
        assert Beats(s[1..], key, t[i], t[j]);
        if Earlier(s[1..], t[i], t[j]) {
          var a, b :| 0 <= a < b < |s[1..]| && s[1..][a] == t[i] && s[1..][b] == t[j];
          assert s[a + 1] == t[i] && s[b + 1] == t[j];
        }
      }
      InsertOrders(s, t, key);
    }
  }

  // ----- pools -----

  function ByViewers(x: Stream): nat { x.viewers }
  function ByInteractions(x: Stream): nat { x.interactions }

  /** Categories of the (at most two) streams with the most previous interactions, if any. */
  function Preferred(parsed: seq<Stream>): set<string> {
    var top := SortDesc(parsed, ByInteractions);
    set x | x in (if |top| <= 2 then top else top[..2]) && x.interactions > 0 :: x.category
  }

  predicate Belongs(x: Stream, source: Source, preferred: set<string>) {
    match source
    case FOLLOWED_CREATOR => x.creatorFollowed
    case PREFERRED_LIVE_CATEGORY => x.category in preferred
    case TRENDING_LIVE => x.growthRate >= 0.15 || x.viewers >= 500
    case REGION_MATCH => x.regionMatch
    case NEW_LIVE => x.ageMinutes <= 20.0
    case EXPLORATION => true
  }

  function ActiveOf(streams: seq<Stream>): seq<Stream> {
    if streams == [] then []
    else
      var rest := ActiveOf(streams[..|streams| - 1]);
      if streams[|streams| - 1].active then rest + [streams[|streams| - 1]] else rest
  }

  function Pool(parsed: seq<Stream>, source: Source, preferred: set<string>): seq<Stream> {
    if parsed == [] then []
    else
      var rest := Pool(parsed[..|parsed| - 1], source, preferred);
      var x := parsed[|parsed| - 1];
      if Belongs(x, source, preferred) then rest + [x] else rest
  }

  // ----- the allocator as a function -----

  function Ids(s: seq<Stream>): set<string> {
    if s == [] then {} else {s[0].id} + Ids(s[1..])
  }

  function EntryIds(s: seq<Entry>): set<string> {
    if s == [] then {} else {s[0].stream.id} + EntryIds(s[1..])
  }

  /** The first `quota` streams of `s` whose id is not taken, each id once. */
  function Take(s: seq<Stream>, taken: set<string>, quota: nat): seq<Stream> {
    if quota == 0 || s == [] then []
    else if s[0].id in taken then Take(s[1..], taken, quota)
    else [s[0]] + Take(s[1..], taken + {s[0].id}, quota - 1)
  }

  function Labelled(s: seq<Stream>, source: Source): (t: seq<Entry>)
    ensures |t| == |s| && forall i | 0 <= i < |s| :: t[i] == Entry(s[i], source)
  {
    seq(|s|, i requires 0 <= i < |s| => Entry(s[i], source))
  }

  /** What source number `n` adds to what the sources before it took. */
  function Round(parsed: seq<Stream>, quota: nat, n: nat): seq<Stream>
    requires n < |LIVE_SOURCES|
    decreases n, 1
  {
    Take(SortDesc(Pool(parsed, LIVE_SOURCES[n], Preferred(parsed)), ByViewers),
         EntryIds(Rounds(parsed, quota, n)), quota)
  }

  function Rounds(parsed: seq<Stream>, quota: nat, n: nat): seq<Entry>
    requires n <= |LIVE_SOURCES|
    decreases n, 0
  {
    if n == 0 then []
    else Rounds(parsed, quota, n - 1) + Labelled(Round(parsed, quota, n - 1), LIVE_SOURCES[n - 1])
  }

  function Quota(limit: nat): nat {
    if limit / |LIVE_SOURCES| >= 1 then limit / |LIVE_SOURCES| else 1
  }

  /** Everything picked before the truncation. */
  function Allocation(parsed: seq<Stream>, limit: nat): seq<Entry> {
    var picked := Rounds(parsed, Quota(limit), |LIVE_SOURCES|);
    picked + Labelled(Take(parsed, EntryIds(picked), if |picked| <= limit then limit - |picked| else 0), EXPLORATION)
  }

  function Truncated(s: seq<Entry>, limit: nat): seq<Entry> {
    if |s| <= limit then s else s[..limit]
  }

  // ----- the allocator as the program runs it -----

  method GenerateLive(requested: seq<Stream>, local: seq<Stream>, limit: nat) returns (candidates: seq<Entry>)
    ensures var parsed := ActiveOf(if requested != [] then requested else local);
      && candidates == Truncated(Allocation(parsed, limit), limit)
      && candidates <= Allocation(parsed, limit)
  {
    var streams := if requested != [] then requested else local;
    var parsed := ParseActive(streams);
    var quota := if limit / |LIVE_SOURCES| >= 1 then limit / |LIVE_SOURCES| else 1;
    var result := RunRounds(parsed, quota);
    result := AddFrom(parsed, EXPLORATION, result, if |result| <= limit then limit - |result| else 0);
    candidates := if |result| <= limit then result else result[..limit];
  }

  method ParseActive(streams: seq<Stream>) returns (parsed: seq<Stream>)
    ensures parsed == ActiveOf(streams)
  {
    parsed := [];
    for i := 0 to |streams|
      invariant parsed == ActiveOf(streams[..i])
    {
      assert streams[..i + 1][..i] == streams[..i];
      if streams[i].active { parsed := parsed + [streams[i]]; }
    }
    assert streams[..|streams|] == streams;
  }

  /** Each stream is appended to every pool that accepts it; pools are in source order. */
  method BuildPools(parsed: seq<Stream>, preferred: set<string>) returns (pools: seq<seq<Stream>>)
    ensures |pools| == |LIVE_SOURCES|
    ensures forall n | 0 <= n < |LIVE_SOURCES| :: pools[n] == Pool(parsed, LIVE_SOURCES[n], preferred)
  {
    pools := seq(|LIVE_SOURCES|, _ => []);
    for i := 0 to |parsed|
      invariant |pools| == |LIVE_SOURCES|
      invariant forall n | 0 <= n < |LIVE_SOURCES| :: pools[n] == Pool(parsed[..i], LIVE_SOURCES[n], preferred)
    {
      var x := parsed[i];
      assert parsed[..i + 1][..i] == parsed[..i];
      pools := seq(|LIVE_SOURCES|, n requires 0 <= n < |pools| == |LIVE_SOURCES| =>
        if Belongs(x, LIVE_SOURCES[n], preferred) then pools[n] + [x] else pools[n]);
    }
    assert parsed[..|parsed|] == parsed;
  }

  method RunRounds(parsed: seq<Stream>, quota: nat) returns (result: seq<Entry>)
    ensures result == Rounds(parsed, quota, |LIVE_SOURCES|)
  {
    var preferred := Preferred(parsed);
    var pools := BuildPools(parsed, preferred);
    result := [];
    for n := 0 to |LIVE_SOURCES|
      invariant result == Rounds(parsed, quota, n)
    {
      var pool := SortDesc(pools[n], ByViewers);
      ghost var before := result;
      result := AddFrom(pool, LIVE_SOURCES[n], result, quota);
      assert result == before + Labelled(Round(parsed, quota, n), LIVE_SOURCES[n]);
    }
  }

  lemma TakeNext(pool: seq<Stream>, i: nat, taken: set<string>, quota: nat)
    requires i < |pool| && quota > 0
    ensures Take(pool[i..], taken, quota) ==
      if pool[i].id in taken then Take(pool[i + 1..], taken, quota)
      else [pool[i]] + Take(pool[i + 1..], taken + {pool[i].id}, quota - 1)
  {
    assert pool[i..][1..] == pool[i + 1..];
  }

  lemma LabelledMore(before: seq<Entry>, picked: seq<Stream>, x: Stream, source: Source)
    ensures before + Labelled(picked + [x], source) == before + Labelled(picked, source) + [Entry(x, source)]
  {
  }

  lemma Regroup(picked: seq<Stream>, x: Stream, rest: seq<Stream>)
    ensures picked + ([x] + rest) == (picked + [x]) + rest
  {
  }

  lemma NothingTaken(s: seq<Stream>, taken: set<string>, quota: nat, picked: seq<Stream>)
    requires s == [] || quota == 0
    ensures picked + Take(s, taken, quota) == picked
  {
  }

  /** One pass over a pool: skip what is taken, stop after `quota` additions. */
  method AddFrom(pool: seq<Stream>, source: Source, before: seq<Entry>, quota: nat) returns (result: seq<Entry>)
    ensures result == before + Labelled(Take(pool, EntryIds(before), quota), source)
  {
    result := before;
    var ids := EntryIds(before);
    var added, i := 0, 0;
    ghost var picked: seq<Stream> := [];
    ghost var taken := Take(pool, ids, quota);
    assert pool[0..] == pool && Labelled(picked, source) == [];
    while i < |pool| && added < quota
      invariant 0 <= i <= |pool| && added <= quota
      invariant result == before + Labelled(picked, source)
      invariant picked + Take(pool[i..], ids, quota - added) == taken
      decreases |pool| - i
    {
      var x := pool[i];
      TakeNext(pool, i, ids, quota - added);
      i := i + 1;
      if x.id !in ids {
        LabelledMore(before, picked, x, source);
        Regroup(picked, x, Take(pool[i..], ids + {x.id}, quota - added - 1));
        result := result + [Entry(x, source)];
        ids := ids + {x.id};
        added := added + 1;
        picked := picked + [x];
      }
    }
    NothingTaken(pool[i..], ids, quota - added, picked);
  }

  // ----- ids -----

  lemma {:induction false} IdsAreIds(s: seq<Stream>)
    ensures forall x | x in s :: x.id in Ids(s)
    ensures forall id | id in Ids(s) :: exists x :: x in s && x.id == id
  {
    if s != [] {
      IdsAreIds(s[1..]);
      assert s == [s[0]] + s[1..];
      forall id | id in Ids(s) ensures exists x :: x in s && x.id == id {
        if id == s[0].id { assert s[0] in s; } else { var x :| x in s[1..] && x.id == id; assert x in s; }
      }
    }
  }

  lemma {:induction false} EntryIdsAreIds(s: seq<Entry>)
    ensures forall e | e in s :: e.stream.id in EntryIds(s)
    ensures forall id | id in EntryIds(s) :: exists e :: e in s && e.stream.id == id
  {
    if s != [] {
      EntryIdsAreIds(s[1..]);
      assert s == [s[0]] + s[1..];
      forall id | id in EntryIds(s) ensures exists e :: e in s && e.stream.id == id {
        if id == s[0].stream.id { assert s[0] in s; } else { var e :| e in s[1..] && e.stream.id == id; assert e in s; }
      }
    }
  }

  // ----- what the pools hold -----

  lemma {:induction false} ActiveOfIsFilter(streams: seq<Stream>)
    ensures forall x :: x in ActiveOf(streams) <==> x in streams && x.active
  {
    if streams != [] {
      var before := streams[..|streams| - 1];
      ActiveOfIsFilter(before);
      assert streams == before + [streams[|streams| - 1]];
    }
  }

  lemma {:induction false} PoolIsFilter(parsed: seq<Stream>, source: Source, preferred: set<string>)
    ensures forall x :: x in Pool(parsed, source, preferred) <==> x in parsed && Belongs(x, source, preferred)
  {
    if parsed != [] {
      var before := parsed[..|parsed| - 1];
      PoolIsFilter(before, source, preferred);
      assert parsed == before + [parsed[|parsed| - 1]];
    }
  }

  /** Preferred categories come from streams the user interacted with; a stream with interactions
      whose category is not preferred is beaten by two streams at least. */
  lemma PreferredAreTheTopTwo(parsed: seq<Stream>)
    ensures forall c | c in Preferred(parsed) :: exists x :: x in parsed && x.category == c && x.interactions > 0
    ensures |Preferred(parsed)| <= 2
    ensures forall x | x in parsed && x.interactions > 0 && x.category !in Preferred(parsed) ::
      var t := SortDesc(parsed, ByInteractions);
      |t| > 2 && Beats(parsed, ByInteractions, t[0], x) && Beats(parsed, ByInteractions, t[1], x)
  {
    var t := SortDesc(parsed, ByInteractions);
    SortDescOrders(parsed, ByInteractions);
    var top := if |t| <= 2 then t else t[..2];
    assert forall k | 0 <= k < |top| :: top[k] == t[k] && top[k] in top
                                        && (t[k].interactions > 0 ==> t[k].category in Preferred(parsed));
    forall x | x in parsed && x.interactions > 0 && x.category !in Preferred(parsed)
      ensures |t| > 2 && Beats(parsed, ByInteractions, t[0], x) && Beats(parsed, ByInteractions, t[1], x)
    {
      var k :| 0 <= k < |t| && t[k] == x;
    }
    AtMostTwo(top, Preferred(parsed));
  }

  ghost predicate AmongFirstTwo(t: seq<Stream>, c: string) {
    exists k :: 0 <= k < 2 && k < |t| && t[k].interactions > 0 && t[k].category == c
  }

  /** A category is preferred exactly if one of the first two streams by interactions has it. */
  lemma PreferredIff(parsed: seq<Stream>, c: string)
    ensures c in Preferred(parsed) <==> AmongFirstTwo(SortDesc(parsed, ByInteractions), c)
  {
    var t := SortDesc(parsed, ByInteractions);
    var top := if |t| <= 2 then t else t[..2];
    if c in Preferred(parsed) {
      var x :| x in top && x.interactions > 0 && x.category == c;
      var k :| 0 <= k < |top| && top[k] == x;
      assert t[k] == x;
    }
    if AmongFirstTwo(t, c) {
      var k :| 0 <= k < 2 && k < |t| && t[k].interactions > 0 && t[k].category == c;
      assert top[k] == t[k] && t[k] in top;
    }
  }

  lemma AtMostTwo(top: seq<Stream>, categories: set<string>)
    requires |top| <= 2 && forall c | c in categories :: exists x :: x in top && x.category == c
    ensures |categories| <= 2
  {
    var all: set<string> := if |top| == 0 then {} else if |top| == 1 then {top[0].category}
                            else {top[0].category, top[1].category};
    assert categories <= all;
    var rest := all - categories;
    assert all == categories + rest;
  }

  // ----- one round -----

  ghost predicate DistinctIds(s: seq<Stream>) {
    forall i, j | 0 <= i < j < |s| :: s[i].id != s[j].id
  }

  /** `t` takes at most `quota` streams of `pool` with fresh and distinct ids, in order, and passes
      one over only for a full quota of streams that all beat it. */
  ghost predicate Greedy(pool: seq<Stream>, taken: set<string>, quota: nat, t: seq<Stream>) {
    && |t| <= quota
    && (forall x | x in t :: x in pool && x.id !in taken)
    && DistinctIds(t)
    && Ordered(pool, ByViewers, t)
    && (forall x | x in pool && x.id !in taken && x.id !in Ids(t) ::
          |t| == quota && forall y | y in t :: Beats(pool, ByViewers, y, x))
  }

  lemma {:induction false} TakeIsSound(s: seq<Stream>, taken: set<string>, quota: nat)
    ensures var t := Take(s, taken, quota);
      && |t| <= quota && DistinctIds(t)
      && (forall x | x in t :: x in s && x.id !in taken)
  {
    if quota > 0 && s != [] {
      if s[0].id in taken {
        TakeIsSound(s[1..], taken, quota);
      } else {
        TakeIsSound(s[1..], taken + {s[0].id}, quota - 1);
        var rest := Take(s[1..], taken + {s[0].id}, quota - 1);
        forall j | 0 <= j < |rest| ensures rest[j].id != s[0].id { assert rest[j] in rest; }
      }
    }
  }

  lemma {:induction false} TakeIsOrdered(pool: seq<Stream>, s: seq<Stream>, taken: set<string>, quota: nat)
    requires Ordered(pool, ByViewers, s)
    ensures Ordered(pool, ByViewers, Take(s, taken, quota))
  {
    if quota > 0 && s != [] {
      if s[0].id in taken {
        TakeIsOrdered(pool, s[1..], taken, quota);
      } else {
        TakeIsOrdered(pool, s[1..], taken + {s[0].id}, quota - 1);
        TakeIsSound(s[1..], taken + {s[0].id}, quota - 1);
        HeadBeatsTail(pool, s);
        GreedyCons(pool, s[0], Take(s[1..], taken + {s[0].id}, quota - 1));
      }
    }
  }

  lemma {:induction false} TakeIsGreedy(pool: seq<Stream>, s: seq<Stream>, taken: set<string>, quota: nat, x: Stream)
    requires Ordered(pool, ByViewers, s)
    requires x in s && x.id !in taken && x.id !in Ids(Take(s, taken, quota))
    ensures |Take(s, taken, quota)| == quota
    ensures forall y | y in Take(s, taken, quota) :: Beats(pool, ByViewers, y, x)
  {
    if quota > 0 {
      assert x == s[0] || x in s[1..];
      if s[0].id in taken {
        TakeIsGreedy(pool, s[1..], taken, quota, x);
      } else {
        var rest := Take(s[1..], taken + {s[0].id}, quota - 1);
        assert Take(s, taken, quota) == [s[0]] + rest;
        TakeIsGreedy(pool, s[1..], taken + {s[0].id}, quota - 1, x);
        HeadBeatsTail(pool, s);
      }
    }
  }

  lemma GreedyCons(pool: seq<Stream>, x0: Stream, rest: seq<Stream>)
    requires Ordered(pool, ByViewers, rest) && forall x | x in rest :: Beats(pool, ByViewers, x0, x)
    ensures Ordered(pool, ByViewers, [x0] + rest)
    ensures forall y | y in [x0] + rest :: y == x0 || y in rest
  {
    var t := [x0] + rest;
    forall i, j | 0 <= i < j < |t| ensures Beats(pool, ByViewers, t[i], t[j]) {
      assert t[j] == rest[j - 1] && t[j] in rest;
    }
  }

  lemma HeadBeatsTail(pool: seq<Stream>, s: seq<Stream>)
    requires s != [] && Ordered(pool, ByViewers, s)
    ensures forall x | x in s[1..] :: Beats(pool, ByViewers, s[0], x)
  {
    forall x | x in s[1..] ensures Beats(pool, ByViewers, s[0], x) {
      var k :| 0 <= k < |s[1..]| && s[1..][k] == x;
      assert s[k + 1] == x;
    }
  }

  /** Every source takes greedily from its pool what the sources before it left. */
  lemma RoundIsGreedy(parsed: seq<Stream>, quota: nat, n: nat)
    requires n < |LIVE_SOURCES|
    ensures Greedy(Pool(parsed, LIVE_SOURCES[n], Preferred(parsed)),
                   EntryIds(Rounds(parsed, quota, n)), quota, Round(parsed, quota, n))
  {
    var pool := Pool(parsed, LIVE_SOURCES[n], Preferred(parsed));
    var taken := EntryIds(Rounds(parsed, quota, n));
    SortDescOrders(pool, ByViewers);
    TakeIsSound(SortDesc(pool, ByViewers), taken, quota);
    TakeIsOrdered(pool, SortDesc(pool, ByViewers), taken, quota);
    forall x | x in pool && x.id !in taken && x.id !in Ids(Round(parsed, quota, n))
      ensures |Round(parsed, quota, n)| == quota
      ensures forall y | y in Round(parsed, quota, n) :: Beats(pool, ByViewers, y, x)
    {
      TakeIsGreedy(pool, SortDesc(pool, ByViewers), taken, quota, x);
    }
  }

  // ----- and that determines it -----

  lemma BeatsIsStrict(pool: seq<Stream>, y: Stream, x: Stream)
    requires DistinctIds(pool) && Beats(pool, ByViewers, y, x)
    ensures !Beats(pool, ByViewers, x, y)
  {
  }

  function Elements(s: seq<Stream>): set<Stream> {
    set x | x in s
  }

  lemma {:induction false} DistinctCount(s: seq<Stream>)
    requires DistinctIds(s)
    ensures |Elements(s)| == |s|
  {
    if s != [] {
      DistinctCount(s[1..]);
      assert Elements(s) == {s[0]} + Elements(s[1..]);
    }
  }

  /** Of two greedy selections neither can hold something the other lacks, both ways. */
  lemma Exchange(pool: seq<Stream>, taken: set<string>, quota: nat, t: seq<Stream>, u: seq<Stream>, x: Stream, y: Stream)
    requires DistinctIds(pool) && Greedy(pool, taken, quota, t) && Greedy(pool, taken, quota, u)
    requires x in t && y in u
    ensures x in u || y in t
  {
    FreshId(pool, u, x);
    FreshId(pool, t, y);
    if Beats(pool, ByViewers, y, x) { BeatsIsStrict(pool, y, x); }
  }

  lemma FreshId(pool: seq<Stream>, u: seq<Stream>, x: Stream)
    requires DistinctIds(pool) && x in pool && forall y | y in u :: y in pool
    ensures x in u <==> x.id in Ids(u)
  {
    IdsAreIds(u);
    SameIdSameStream(pool);
  }

  lemma SmallerSubset(a: set<Stream>, b: set<Stream>, x: Stream)
    ensures a <= b && x in b && x !in a ==> |a| < |b|
  {
    if a <= b && x in b && x !in a {
      assert b == a + (b - a);
      assert x in b - a;
    }
  }

  lemma GreedyContains(pool: seq<Stream>, taken: set<string>, quota: nat, t: seq<Stream>, u: seq<Stream>, x: Stream)
    requires DistinctIds(pool) && Greedy(pool, taken, quota, t) && Greedy(pool, taken, quota, u)
    requires x in t
    ensures x in u
  {
    FreshId(pool, u, x);
    DistinctCount(t);
    DistinctCount(u);
    forall y | y in u ensures x in u || y in t { Exchange(pool, taken, quota, t, u, x, y); }
    SmallerSubset(Elements(u), Elements(t), x);
  }

  lemma SameIdSameStream(pool: seq<Stream>)
    requires DistinctIds(pool)
    ensures forall x, y | x in pool && y in pool && x.id == y.id :: x == y
  {
  }

  lemma {:induction false} OrderedIsUnique(pool: seq<Stream>, t: seq<Stream>, u: seq<Stream>)
    requires DistinctIds(pool) && DistinctIds(t) && DistinctIds(u)
    requires Ordered(pool, ByViewers, t) && Ordered(pool, ByViewers, u)
    requires |t| == |u| && forall x :: x in t <==> x in u
    ensures t == u
  {
    if t != [] {
      assert t[0] in t && t[0] in u;
      assert u[0] in u && u[0] in t;
      HeadBeatsTail(pool, t);
      HeadBeatsTail(pool, u);
      if t[0] != u[0] {
        assert t[0] in u[1..] && u[0] in t[1..];
        BeatsIsStrict(pool, t[0], u[0]);
      }
      forall x ensures x in t[1..] <==> x in u[1..] {
        assert x in t <==> x == t[0] || x in t[1..];
        assert x in u <==> x == u[0] || x in u[1..];
        assert t[0] !in t[1..] && u[0] !in u[1..];
      }
      OrderedIsUnique(pool, t[1..], u[1..]);
    }
  }

  /** With distinct stream ids, a source's picks are the only ones that meet the greedy conditions. */
  lemma {:induction false} GreedyIsUnique(parsed: seq<Stream>, quota: nat, n: nat, t: seq<Stream>)
    requires n < |LIVE_SOURCES| && DistinctIds(Pool(parsed, LIVE_SOURCES[n], Preferred(parsed)))
    requires Greedy(Pool(parsed, LIVE_SOURCES[n], Preferred(parsed)), EntryIds(Rounds(parsed, quota, n)), quota, t)
    ensures t == Round(parsed, quota, n)
  {
    var pool, taken := Pool(parsed, LIVE_SOURCES[n], Preferred(parsed)), EntryIds(Rounds(parsed, quota, n));
    var u := Round(parsed, quota, n);
    RoundIsGreedy(parsed, quota, n);
    forall x ensures x in t <==> x in u {
      if x in t { GreedyContains(pool, taken, quota, t, u, x); }
      if x in u { GreedyContains(pool, taken, quota, u, t, x); }
    }
    DistinctCount(t);
    DistinctCount(u);
    assert Elements(t) == Elements(u);
    OrderedIsUnique(pool, t, u);
  }

  // ----- the whole answer -----

  ghost predicate DistinctEntries(s: seq<Entry>) {
    forall i, j | 0 <= i < j < |s| :: s[i].stream.id != s[j].stream.id
  }

  /** Labels are sound, and every entry is an input stream. */
  ghost predicate SoundEntries(parsed: seq<Stream>, s: seq<Entry>) {
    forall e | e in s :: e.stream in parsed && Belongs(e.stream, e.source, Preferred(parsed))
  }

  lemma LabelledEntries(before: seq<Entry>, t: seq<Stream>, source: Source)
    requires DistinctEntries(before) && DistinctIds(t) && forall x | x in t :: x.id !in EntryIds(before)
    ensures DistinctEntries(before + Labelled(t, source))
  {
    EntryIdsAreIds(before);
    var all := before + Labelled(t, source);
    forall i, j | 0 <= i < j < |all| ensures all[i].stream.id != all[j].stream.id {
      if i < |before| <= j { assert before[i] in before; assert t[j - |before|] in t; }
    }
  }

  lemma LabelledSound(parsed: seq<Stream>, before: seq<Entry>, t: seq<Stream>, source: Source)
    requires SoundEntries(parsed, before)
    requires forall x | x in t :: x in parsed && Belongs(x, source, Preferred(parsed))
    ensures SoundEntries(parsed, before + Labelled(t, source))
  {
    var added := Labelled(t, source);
    forall e | e in before + added ensures e.stream in parsed && Belongs(e.stream, e.source, Preferred(parsed)) {
      if e !in before {
        var k :| 0 <= k < |added| && added[k] == e;
        assert t[k] in t;
      }
    }
  }

  lemma RoundBelongs(parsed: seq<Stream>, quota: nat, n: nat)
    requires n < |LIVE_SOURCES|
    ensures var t := Round(parsed, quota, n);
      && |t| <= quota && DistinctIds(t)
      && (forall x | x in t :: x.id !in EntryIds(Rounds(parsed, quota, n)))
      && (forall x | x in t :: x in parsed && Belongs(x, LIVE_SOURCES[n], Preferred(parsed)))
  {
    RoundIsGreedy(parsed, quota, n);
    PoolIsFilter(parsed, LIVE_SOURCES[n], Preferred(parsed));
  }

  lemma {:induction false} RoundsAreSound(parsed: seq<Stream>, quota: nat, n: nat)
    requires n <= |LIVE_SOURCES|
    ensures DistinctEntries(Rounds(parsed, quota, n)) && SoundEntries(parsed, Rounds(parsed, quota, n))
  {
    if n > 0 {
      RoundsAreSound(parsed, quota, n - 1);
      RoundBelongs(parsed, quota, n - 1);
      var before, t, source := Rounds(parsed, quota, n - 1), Round(parsed, quota, n - 1), LIVE_SOURCES[n - 1];
      LabelledEntries(before, t, source);
      LabelledSound(parsed, before, t, source);
    }
  }

  lemma RoundIsShort(parsed: seq<Stream>, quota: nat, n: nat)
    requires n < |LIVE_SOURCES|
    ensures |Rounds(parsed, quota, n + 1)| <= |Rounds(parsed, quota, n)| + quota
  {
    RoundBelongs(parsed, quota, n);
  }

  lemma {:induction false} RoundsLength(parsed: seq<Stream>, quota: nat, n: nat)
    requires n <= |LIVE_SOURCES|
    ensures |Rounds(parsed, quota, n)| <= n * quota
  {
    if n > 0 {
      RoundsLength(parsed, quota, n - 1);
      RoundIsShort(parsed, quota, n - 1);
      OneMore(n, quota);
    }
  }

  lemma OneMore(n: nat, quota: nat)
    requires n > 0
    ensures n * quota == (n - 1) * quota + quota
  {
  }

  lemma {:induction false} TakeSize(s: seq<Stream>, taken: set<string>, quota: nat)
    ensures |Take(s, taken, quota)| ==
      if |Ids(s) - taken| <= quota then |Ids(s) - taken| else quota
  {
    if s == [] {
      assert Ids(s) - taken == {};
    } else if quota > 0 {
      if s[0].id in taken {
        TakeSize(s[1..], taken, quota);
        assert Ids(s) - taken == Ids(s[1..]) - taken;
      } else {
        TakeSize(s[1..], taken + {s[0].id}, quota - 1);
        assert Ids(s) - taken == {s[0].id} + (Ids(s[1..]) - (taken + {s[0].id}));
      }
    }
  }

  lemma {:induction false} DistinctEntriesCount(s: seq<Entry>)
    requires DistinctEntries(s)
    ensures |EntryIds(s)| == |s|
  {
    if s != [] {
      DistinctEntriesCount(s[1..]);
      EntryIdsAreIds(s[1..]);
    }
  }

  lemma EntryIdsAreInput(parsed: seq<Stream>, s: seq<Entry>)
    requires SoundEntries(parsed, s)
    ensures EntryIds(s) <= Ids(parsed)
  {
    EntryIdsAreIds(s);
    IdsAreIds(parsed);
  }

  lemma Split(all: set<string>, part: set<string>)
    requires part <= all
    ensures |all - part| == |all| - |part|
  {
    assert all == part + (all - part);
  }

  lemma AllocationIsSound(parsed: seq<Stream>, limit: nat)
    ensures DistinctEntries(Allocation(parsed, limit)) && SoundEntries(parsed, Allocation(parsed, limit))
  {
    var picked := Rounds(parsed, Quota(limit), |LIVE_SOURCES|);
    var room := if |picked| <= limit then limit - |picked| else 0;
    var fill := Take(parsed, EntryIds(picked), room);
    RoundsAreSound(parsed, Quota(limit), |LIVE_SOURCES|);
    TakeIsSound(parsed, EntryIds(picked), room);
    LabelledEntries(picked, fill, EXPLORATION);
    LabelledSound(parsed, picked, fill, EXPLORATION);
    assert Allocation(parsed, limit) == picked + Labelled(fill, EXPLORATION);
  }

  lemma AllocationSize(parsed: seq<Stream>, limit: nat)
    ensures var a := Allocation(parsed, limit);
      && (limit >= |LIVE_SOURCES| ==> |a| <= limit)
      && (if |a| >= limit then |Ids(parsed)| >= limit else |a| == |Ids(parsed)|)
  {
    var picked := Rounds(parsed, Quota(limit), |LIVE_SOURCES|);
    var room := if |picked| <= limit then limit - |picked| else 0;
    RoundsAreSound(parsed, Quota(limit), |LIVE_SOURCES|);
    RoundsLength(parsed, Quota(limit), |LIVE_SOURCES|);
    TakeSize(parsed, EntryIds(picked), room);
    EntryIdsAreInput(parsed, picked);
    DistinctEntriesCount(picked);
    Split(Ids(parsed), EntryIds(picked));
    assert |Allocation(parsed, limit)| == |picked| + |Take(parsed, EntryIds(picked), room)|;
  }

  /** The answer for every input, duplicate ids included: no stream id twice, only active input
      streams under labels they qualify for, and exactly as many as the limit and the distinct
      active ids allow.  From a limit of six on, nothing is truncated. */
  lemma AnswerIsSoundAndFull(streams: seq<Stream>, limit: nat)
    ensures var parsed := ActiveOf(streams);
      var answer := Truncated(Allocation(parsed, limit), limit);
      && DistinctEntries(answer) && SoundEntries(parsed, answer)
      && (forall e | e in answer :: e.stream in streams && e.stream.active)
      && |answer| == (if |Ids(parsed)| <= limit then |Ids(parsed)| else limit)
      && (limit >= |LIVE_SOURCES| ==> answer == Allocation(parsed, limit))
  {
    var parsed := ActiveOf(streams);
    ActiveOfIsFilter(streams);
    AllocationIsSound(parsed, limit);
    AllocationSize(parsed, limit);
    var a := Allocation(parsed, limit);
    var answer := Truncated(a, limit);
    forall e | e in answer ensures e in a {}
  }

  // ----- the allocation in the program's own terms -----

  /** Only the active streams are parsed, in their order and as often as they come. */
  lemma ActiveOfParts(a: seq<Stream>, b: seq<Stream>, x: Stream)
    ensures ActiveOf(a + b) == ActiveOf(a) + ActiveOf(b)
    ensures ActiveOf([x]) == if x.active then [x] else []
  {
    ActiveOfJoins(a, b);
    assert [x][..0] == [];
  }

  lemma {:induction false} ActiveOfJoins(a: seq<Stream>, b: seq<Stream>)
    ensures ActiveOf(a + b) == ActiveOf(a) + ActiveOf(b)
  {
    if b == [] {
      assert a + b == a;
    } else {
      ActiveOfJoins(a, b[..|b| - 1]);
      assert (a + b)[..|a + b| - 1] == a + b[..|b| - 1];
    }
  }

  ghost predicate FreshFor(before: seq<Entry>, x: Stream) {
    forall e :: e in before ==> e.stream.id != x.id
  }

  ghost predicate NotIn(t: seq<Stream>, x: Stream) {
    forall y :: y in t ==> y.id != x.id
  }

  /** `y` has more viewers than `x`, or as many and an earlier place in the input. */
  ghost predicate Precedes(parsed: seq<Stream>, y: Stream, x: Stream) {
    y.viewers > x.viewers || (y.viewers == x.viewers && Earlier(parsed, y, x))
  }

  /** `t` is at most `q` qualifying streams of the input with fresh and distinct ids, best first, and
      passes one over only for `q` others that all precede it. */
  ghost predicate Takes(parsed: seq<Stream>, qualifies: Stream -> bool, before: seq<Entry>, q: nat, t: seq<Stream>) {
    && |t| <= q && DistinctIds(t)
    && (forall x :: x in t ==> x in parsed && qualifies(x) && FreshFor(before, x))
    && (forall i, j :: 0 <= i < j < |t| ==> Precedes(parsed, t[i], t[j]))
    && (forall x :: x in parsed && qualifies(x) && FreshFor(before, x) && NotIn(t, x) ==>
          |t| == q && forall y :: y in t ==> Precedes(parsed, y, x))
  }

  /** `t` fills up to `limit` with streams of fresh and distinct ids in input order, and passes one over
      only when the answer is full of earlier ones. */
  ghost predicate Fills(parsed: seq<Stream>, before: seq<Entry>, limit: nat, t: seq<Stream>) {
    && DistinctIds(t) && (t != [] ==> |before| + |t| <= limit)
    && (forall x :: x in t ==> x in parsed && FreshFor(before, x))
    && (forall i, j :: 0 <= i < j < |t| ==> Earlier(parsed, t[i], t[j]))
    && (forall x :: x in parsed && FreshFor(before, x) && NotIn(t, x) ==>
          |before| + |t| >= limit && forall y :: y in t ==> Earlier(parsed, y, x))
  }

  lemma {:induction false} PoolKeepsOrder(parsed: seq<Stream>, source: Source, preferred: set<string>)
    ensures forall y, x :: Earlier(Pool(parsed, source, preferred), y, x) ==> Earlier(parsed, y, x)
  {
    if parsed != [] {
      var n := |parsed| - 1;
      var before, pool := parsed[..n], Pool(parsed, source, preferred);
      PoolKeepsOrder(before, source, preferred);
      PoolIsFilter(before, source, preferred);
      var p := Pool(before, source, preferred);
      forall y, x | Earlier(pool, y, x) ensures Earlier(parsed, y, x) {
        var i, j :| 0 <= i < j < |pool| && pool[i] == y && pool[j] == x;
        assert pool[i] == p[i] && p[i] in p;
        if j < |p| {
          assert Earlier(p, y, x);
          var a, b :| 0 <= a < b < |before| && before[a] == y && before[b] == x;
          assert parsed[a] == y && parsed[b] == x;
        } else {
          var a :| 0 <= a < |before| && before[a] == y;
          assert parsed[a] == y && parsed[n] == x;
        }
      }
    }
  }

  lemma FreshForIds(before: seq<Entry>, x: Stream)
    ensures FreshFor(before, x) <==> x.id !in EntryIds(before)
  {
    EntryIdsAreIds(before);
  }

  lemma NotInIds(t: seq<Stream>, x: Stream)
    ensures NotIn(t, x) <==> x.id !in Ids(t)
  {
    IdsAreIds(t);
  }

  lemma RoundTakes(parsed: seq<Stream>, q: nat, n: nat, qualifies: Stream -> bool)
    requires n < |LIVE_SOURCES|
    requires forall x :: qualifies(x) <==> Belongs(x, LIVE_SOURCES[n], Preferred(parsed))
    ensures Takes(parsed, qualifies, Rounds(parsed, q, n), q, Round(parsed, q, n))
  {
    var source, t, before := LIVE_SOURCES[n], Round(parsed, q, n), Rounds(parsed, q, n);
    var pool := Pool(parsed, source, Preferred(parsed));
    RoundIsGreedy(parsed, q, n);
    PoolIsFilter(parsed, source, Preferred(parsed));
    PoolKeepsOrder(parsed, source, Preferred(parsed));
    forall x ensures (FreshFor(before, x) <==> x.id !in EntryIds(before)) && (NotIn(t, x) <==> x.id !in Ids(t)) {
      FreshForIds(before, x);
      NotInIds(t, x);
    }
    forall y, x | Beats(pool, ByViewers, y, x) ensures Precedes(parsed, y, x) {}
  }

  ghost predicate InInputOrder(s: seq<Stream>, t: seq<Stream>) {
    forall i, j :: 0 <= i < j < |t| ==> Earlier(s, t[i], t[j])
  }

  lemma {:induction false} TakeInInputOrder(s: seq<Stream>, taken: set<string>, quota: nat)
    ensures InInputOrder(s, Take(s, taken, quota))
  {
    if quota > 0 && s != [] {
      if s[0].id in taken {
        TakeInInputOrder(s[1..], taken, quota);
        TakeIsSound(s[1..], taken, quota);
        OrderFromTheTail(s, Take(s[1..], taken, quota));
      } else {
        TakeInInputOrder(s[1..], taken + {s[0].id}, quota - 1);
        TakeIsSound(s[1..], taken + {s[0].id}, quota - 1);
        OrderFromTheTail(s, Take(s[1..], taken + {s[0].id}, quota - 1));
      }
    }
  }

  lemma OrderFromTheTail(s: seq<Stream>, t: seq<Stream>)
    requires s != [] && InInputOrder(s[1..], t) && forall x :: x in t ==> x in s[1..]
    ensures InInputOrder(s, t) && InInputOrder(s, [s[0]] + t)
  {
    TailEarlier(s);
    forall i, j | 0 <= i < j < |t| ensures Earlier(s, t[i], t[j]) {
      assert Earlier(s[1..], t[i], t[j]);
    }
    var u := [s[0]] + t;
    forall i, j | 0 <= i < j < |u| ensures Earlier(s, u[i], u[j]) {
      assert u[j] == t[j - 1] && t[j - 1] in t;
      if i > 0 { assert u[i] == t[i - 1] && Earlier(s[1..], t[i - 1], t[j - 1]); }
    }
  }

  lemma {:induction false} TakePassesOver(s: seq<Stream>, taken: set<string>, quota: nat, x: Stream)
    requires x in s && x.id !in taken && x.id !in Ids(Take(s, taken, quota))
    ensures |Take(s, taken, quota)| == quota && forall y :: y in Take(s, taken, quota) ==> Earlier(s, y, x)
  {
    if quota > 0 {
      TailEarlier(s);
      assert x == s[0] || x in s[1..];
      if s[0].id in taken {
        TakePassesOver(s[1..], taken, quota, x);
      } else {
        assert Take(s, taken, quota) == [s[0]] + Take(s[1..], taken + {s[0].id}, quota - 1);
        TakePassesOver(s[1..], taken + {s[0].id}, quota - 1, x);
      }
    }
  }

  lemma TailEarlier(s: seq<Stream>)
    requires s != []
    ensures forall y, x :: Earlier(s[1..], y, x) ==> Earlier(s, y, x)
    ensures forall x :: x in s[1..] ==> Earlier(s, s[0], x)
  {
    forall y, x | Earlier(s[1..], y, x) ensures Earlier(s, y, x) {
      var i, j :| 0 <= i < j < |s[1..]| && s[1..][i] == y && s[1..][j] == x;
      assert s[i + 1] == y && s[j + 1] == x;
    }
    forall x | x in s[1..] ensures Earlier(s, s[0], x) {
      var j :| 0 <= j < |s[1..]| && s[1..][j] == x;
      assert s[j + 1] == x;
    }
  }

  lemma FillFills(parsed: seq<Stream>, before: seq<Entry>, limit: nat)
    ensures Fills(parsed, before, limit, Take(parsed, EntryIds(before), if |before| <= limit then limit - |before| else 0))
  {
    var room := if |before| <= limit then limit - |before| else 0;
    var t := Take(parsed, EntryIds(before), room);
    TakeInInputOrder(parsed, EntryIds(before), room);
    TakeIsSound(parsed, EntryIds(before), room);
    forall x | x in parsed && x.id !in EntryIds(before) && x.id !in Ids(t)
      ensures |t| == room && forall y :: y in t ==> Earlier(parsed, y, x)
    {
      TakePassesOver(parsed, EntryIds(before), room, x);
    }
    forall x ensures (FreshFor(before, x) <==> x.id !in EntryIds(before)) && (NotIn(t, x) <==> x.id !in Ids(t)) {
      FreshForIds(before, x);
      NotInIds(t, x);
    }
  }

  lemma QuotaIs(limit: nat, q: nat)
    requires if limit < 6 then q == 1 else 6 * q <= limit < 6 * (q + 1)
    ensures Quota(limit) == q
  {
  }

  /** The whole answer before its truncation, source by source: each takes best first up to a sixth of
      the limit (at least one) of what the sources before it left, and the rest is filled up in input
      order. */
  lemma AllocationIs(parsed: seq<Stream>, limit: nat, q: nat)
    returns (followed: seq<Stream>, category: seq<Stream>, trending: seq<Stream>, region: seq<Stream>,
             recent: seq<Stream>, exploration: seq<Stream>, fill: seq<Stream>)
    requires if limit < 6 then q == 1 else 6 * q <= limit < 6 * (q + 1)
    ensures var a1 := Labelled(followed, FOLLOWED_CREATOR);
      var a2 := a1 + Labelled(category, PREFERRED_LIVE_CATEGORY);
      var a3 := a2 + Labelled(trending, TRENDING_LIVE);
      var a4 := a3 + Labelled(region, REGION_MATCH);
      var a5 := a4 + Labelled(recent, NEW_LIVE);
      var a6 := a5 + Labelled(exploration, EXPLORATION);
      && Allocation(parsed, limit) == a6 + Labelled(fill, EXPLORATION)
      && Takes(parsed, (x: Stream) => x.creatorFollowed, [], q, followed)
      && Takes(parsed, (x: Stream) => x.category in Preferred(parsed), a1, q, category)
      && Takes(parsed, (x: Stream) => x.growthRate >= 0.15 || x.viewers >= 500, a2, q, trending)
      && Takes(parsed, (x: Stream) => x.regionMatch, a3, q, region)
      && Takes(parsed, (x: Stream) => x.ageMinutes <= 20.0, a4, q, recent)
      && Takes(parsed, (x: Stream) => true, a5, q, exploration)
      && Fills(parsed, a6, limit, fill)
  {
    QuotaIs(limit, q);
    var picks;
    picks, fill := PickAndFill(parsed, limit);
    followed, category, trending, region, recent, exploration := picks[0], picks[1], picks[2], picks[3], picks[4], picks[5];
    StackedSix(picks);
    FirstSourcesTake(parsed, q, picks);
    LastSourcesTake(parsed, q, picks);
  }

  /** What the first `n` sources contribute. */
  function Stacked(picks: seq<seq<Stream>>, n: nat): seq<Entry>
    requires n <= |picks| == |LIVE_SOURCES|
  {
    if n == 0 then [] else Stacked(picks, n - 1) + Labelled(picks[n - 1], LIVE_SOURCES[n - 1])
  }

  lemma {:induction false} StackedRounds(parsed: seq<Stream>, q: nat, picks: seq<seq<Stream>>, n: nat)
    requires n <= |picks| == |LIVE_SOURCES| && forall k :: 0 <= k < |picks| ==> picks[k] == Round(parsed, q, k)
    ensures Stacked(picks, n) == Rounds(parsed, q, n)
  {
    if n > 0 { StackedRounds(parsed, q, picks, n - 1); }
  }

  ghost predicate SourceTakes(parsed: seq<Stream>, q: nat, picks: seq<seq<Stream>>, n: nat)
    requires n < |picks| == |LIVE_SOURCES|
  {
    Takes(parsed, (x: Stream) => Belongs(x, LIVE_SOURCES[n], Preferred(parsed)), Stacked(picks, n), q, picks[n])
  }

  lemma PickAndFill(parsed: seq<Stream>, limit: nat) returns (picks: seq<seq<Stream>>, fill: seq<Stream>)
    ensures |picks| == |LIVE_SOURCES|
    ensures forall n: nat :: n < |picks| ==> SourceTakes(parsed, Quota(limit), picks, n)
    ensures Allocation(parsed, limit) == Stacked(picks, |picks|) + Labelled(fill, EXPLORATION)
    ensures Fills(parsed, Stacked(picks, |picks|), limit, fill)
  {
    var q := Quota(limit);
    picks := seq(|LIVE_SOURCES|, k requires 0 <= k < |LIVE_SOURCES| => Round(parsed, q, k));
    forall n: nat | n < |picks| ensures SourceTakes(parsed, q, picks, n) {
      StackedRounds(parsed, q, picks, n);
      RoundTakes(parsed, q, n, (x: Stream) => Belongs(x, LIVE_SOURCES[n], Preferred(parsed)));
    }
    StackedRounds(parsed, q, picks, |picks|);
    var picked := Stacked(picks, |picks|);
    fill := Take(parsed, EntryIds(picked), if |picked| <= limit then limit - |picked| else 0);
    FillFills(parsed, picked, limit);
  }

  lemma StackedSix(picks: seq<seq<Stream>>)
    requires |picks| == 6
    ensures Stacked(picks, 0) == [] && Stacked(picks, 1) == Labelled(picks[0], FOLLOWED_CREATOR)
    ensures Stacked(picks, 2) == Stacked(picks, 1) + Labelled(picks[1], PREFERRED_LIVE_CATEGORY)
    ensures Stacked(picks, 3) == Stacked(picks, 2) + Labelled(picks[2], TRENDING_LIVE)
    ensures Stacked(picks, 4) == Stacked(picks, 3) + Labelled(picks[3], REGION_MATCH)
    ensures Stacked(picks, 5) == Stacked(picks, 4) + Labelled(picks[4], NEW_LIVE)
    ensures Stacked(picks, 6) == Stacked(picks, 5) + Labelled(picks[5], EXPLORATION)
  {
    assert [] + Labelled(picks[0], FOLLOWED_CREATOR) == Labelled(picks[0], FOLLOWED_CREATOR);
  }

  lemma TakesAlike(parsed: seq<Stream>, f: Stream -> bool, g: Stream -> bool, before: seq<Entry>, q: nat, t: seq<Stream>)
    requires Takes(parsed, f, before, q, t) && forall x :: f(x) <==> g(x)
    ensures Takes(parsed, g, before, q, t)
  {
  }

  lemma SourceTakesAlike(parsed: seq<Stream>, q: nat, picks: seq<seq<Stream>>, n: nat, g: Stream -> bool)
    requires n < |picks| == |LIVE_SOURCES| && SourceTakes(parsed, q, picks, n)
    requires forall x :: g(x) <==> Belongs(x, LIVE_SOURCES[n], Preferred(parsed))
    ensures Takes(parsed, g, Stacked(picks, n), q, picks[n])
  {
    TakesAlike(parsed, (x: Stream) => Belongs(x, LIVE_SOURCES[n], Preferred(parsed)), g, Stacked(picks, n), q, picks[n]);
  }

  lemma FirstSourcesTake(parsed: seq<Stream>, q: nat, picks: seq<seq<Stream>>)
    requires |picks| == 6 && forall n: nat :: n < 6 ==> SourceTakes(parsed, q, picks, n)
    ensures Takes(parsed, (x: Stream) => x.creatorFollowed, Stacked(picks, 0), q, picks[0])
    ensures Takes(parsed, (x: Stream) => x.category in Preferred(parsed), Stacked(picks, 1), q, picks[1])
    ensures Takes(parsed, (x: Stream) => x.growthRate >= 0.15 || x.viewers >= 500, Stacked(picks, 2), q, picks[2])
  {
    SourceTakesAlike(parsed, q, picks, 0, (x: Stream) => x.creatorFollowed);
    SourceTakesAlike(parsed, q, picks, 1, (x: Stream) => x.category in Preferred(parsed));
    SourceTakesAlike(parsed, q, picks, 2, (x: Stream) => x.growthRate >= 0.15 || x.viewers >= 500);
  }

  lemma LastSourcesTake(parsed: seq<Stream>, q: nat, picks: seq<seq<Stream>>)
    requires |picks| == 6 && forall n: nat :: n < 6 ==> SourceTakes(parsed, q, picks, n)
    ensures Takes(parsed, (x: Stream) => x.regionMatch, Stacked(picks, 3), q, picks[3])
    ensures Takes(parsed, (x: Stream) => x.ageMinutes <= 20.0, Stacked(picks, 4), q, picks[4])
    ensures Takes(parsed, (x: Stream) => true, Stacked(picks, 5), q, picks[5])
  {
    SourceTakesAlike(parsed, q, picks, 3, (x: Stream) => x.regionMatch);
    SourceTakesAlike(parsed, q, picks, 4, (x: Stream) => x.ageMinutes <= 20.0);
    SourceTakesAlike(parsed, q, picks, 5, (x: Stream) => true);
  }
}
