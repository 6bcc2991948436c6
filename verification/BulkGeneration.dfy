/**
 The bulk loop and batch commits of `generate` (scripts/generate_synthetic_data.py).

 Random draws are parameters; times are seconds since the start of the 120-day window.  An
 interaction keeps its number, its content and its time; the other columns are left out.
 */
module BulkGeneration {

  const DAY := 86400
  const WINDOW := 120 * DAY
  const BATCH := 1000
  const CONTENTS := 300

  datatype Content = Content(id: nat, created: int)

  datatype Row = Row(number: nat, content: Content, time: int)

  /** `rng.randint(0, 600)` and the index `rng.choice` draws, before reduction to its range. */
  datatype Draw = Draw(jitter: nat, pick: nat)

  predicate Drawn(d: Draw) { d.jitter <= 600 }

  /** The first twenty contents are 1 to 30 days older than the window, the others 0 to 119 days
      into it. */
  predicate Catalogue(contents: seq<Content>) {
    && |contents| == CONTENTS
    && (forall i :: 0 <= i < 20 ==> -30 * DAY <= contents[i].created <= -DAY)
    && (forall i :: 20 <= i < CONTENTS ==> 0 <= contents[i].created <= 119 * DAY)
  }

  function Time(i: nat, d: Draw): int { i * 850 + d.jitter }

  function Available(contents: seq<Content>, time: int): (r: seq<Content>)
    ensures forall c :: c in r <==> c in contents && c.created <= time
  {
    if contents == [] then [] else
    var rest := Available(contents[..|contents| - 1], time);
    if contents[|contents| - 1].created <= time then rest + [contents[|contents| - 1]] else rest
  }

  /** `rng.choice` always has something to choose from. */
  lemma SomethingIsAvailable(contents: seq<Content>, time: int)
    requires Catalogue(contents) && time >= 0
    ensures Available(contents, time) != []
  {
    assert contents[0] in Available(contents, time);
  }

  function RowAt(contents: seq<Content>, i: nat, d: Draw): Row
    requires Catalogue(contents)
  {
    var available := Available(contents, Time(i, d));
    SomethingIsAvailable(contents, Time(i, d));
    Row(i + 1, available[d.pick % |available|], Time(i, d))
  }

  /** The rows the loop produces, in order. */
  function Produced(contents: seq<Content>, draws: seq<Draw>): seq<Row>
    requires Catalogue(contents)
  {
    seq(|draws|, i requires 0 <= i < |draws| => RowAt(contents, i, draws[i]))
  }

  // ----- the database session -----

  class Database {
    var contents: seq<Content>
    var rows: seq<Row>
    var addedContents: seq<Content>
    var added: seq<Row>

    constructor ()
      ensures contents == [] && rows == [] && addedContents == [] && added == []
    { contents, rows, addedContents, added := [], [], [], []; }

    method AddContents(c: seq<Content>)
      modifies this`addedContents
      ensures addedContents == old(addedContents) + c
    { addedContents := addedContents + c; }

    method AddRows(r: seq<Row>)
      modifies this`added
      ensures added == old(added) + r
    { added := added + r; }

    method Commit()
      modifies this
      ensures contents == old(contents) + old(addedContents) && rows == old(rows) + old(added)
      ensures addedContents == [] && added == []
    {
      contents, rows := contents + addedContents, rows + added;
      addedContents, added := [], [];
    }

    /** Closing a session drops what it has not committed. */
    method Close()
      modifies this`addedContents, this`added
      ensures addedContents == [] && added == []
    { addedContents, added := [], []; }
  }

  /** How far a call gets: to the final commit, or until something raises when `n` rows of the
      loop have been produced (n is the whole count when it is the cohorts or the last commit). */
  datatype Fate = Finishes | Raises(n: nat)

  function Batched(n: nat): nat { n - n % BATCH }

  /** The loop rows that are in the database afterwards. */
  function Kept(count: nat, fate: Fate): nat {
    match fate
    case Finishes => count
    case Raises(n) => if n <= count then Batched(n) else count
  }

  predicate Completes(count: nat, fate: Fate) {
    fate.Finishes? || fate.n > count
  }

  /** The rows produced from `i` to `j`. */
  function Stretch(contents: seq<Content>, draws: seq<Draw>, i: nat, j: nat): (r: seq<Row>)
    requires Catalogue(contents) && i <= j <= |draws|
    ensures |r| == j - i
  {
    Produced(contents, draws)[i..j]
  }

  lemma StretchGrows(contents: seq<Content>, draws: seq<Draw>, i: nat, j: nat)
    requires Catalogue(contents) && i <= j < |draws|
    ensures Stretch(contents, draws, i, j) + [RowAt(contents, j, draws[j])] == Stretch(contents, draws, i, j + 1)
  {
  }

  lemma StretchesJoin(contents: seq<Content>, draws: seq<Draw>, i: nat, j: nat)
    requires Catalogue(contents) && i <= j <= |draws|
    ensures Stretch(contents, draws, 0, i) + Stretch(contents, draws, i, j) == Stretch(contents, draws, 0, j)
  {
  }

  predicate Full(n: nat) { n % BATCH == 0 }

  lemma FullNext(n: nat)
    requires Full(n)
    ensures Full(n + BATCH)
  {
  }

  lemma BatchedIs(done: nat, i: nat)
    requires Full(done) && done <= i < done + BATCH
    ensures Batched(i) == done
  {
  }

  /** The bulk loop: `rows` is what it has produced since its last commit. */
  method BulkLoop(db: Database, contents: seq<Content>, draws: seq<Draw>, fate: Fate)
    returns (rows: seq<Row>, ok: bool)
    requires Catalogue(contents) && db.rows == [] && db.added == [] && db.addedContents == contents
    modifies db
    ensures ok <==> fate.Finishes? || fate.n >= |draws|
    ensures var n := if ok then |draws| else fate.n;
      && db.rows == Stretch(contents, draws, 0, Batched(n)) && db.added == []
      && rows == Stretch(contents, draws, Batched(n), n)
      && db.contents == (if Batched(n) == 0 then old(db.contents) else old(db.contents) + contents)
      && db.addedContents == if Batched(n) == 0 then contents else []
  {
    ghost var done := 0;
    rows := [];
    var i := 0;
    while i < |draws| && fate != Raises(i)
      invariant i <= |draws| && (fate.Raises? ==> i <= fate.n)
      invariant Full(done) && done <= i < done + BATCH
      invariant db.rows == Stretch(contents, draws, 0, done) && rows == Stretch(contents, draws, done, i) && db.added == []
      invariant db.contents == if done == 0 then old(db.contents) else old(db.contents) + contents
      invariant db.addedContents == if done == 0 then contents else []
    {
      StretchGrows(contents, draws, done, i);
      rows := rows + [RowAt(contents, i, draws[i])];
      i := i + 1;
      if |rows| >= BATCH {
        db.AddRows(rows);
        db.Commit();
        StretchesJoin(contents, draws, done, i);
        FullNext(done);
        rows := [];
        done := i;
      }
    }
    BatchedIs(done, i);
    ok := i == |draws|;
  }

  /** The whole call.  The database holds synthetic rows only; `cohorts` are the rows of the
      additional cohorts. */
  method Generate(db: Database, contents: seq<Content>, draws: seq<Draw>, cohorts: seq<Row>, fate: Fate)
    requires Catalogue(contents) && db.addedContents == [] && db.added == []
    modifies db
    ensures db.addedContents == [] && db.added == []
    ensures old(db.rows) != [] ==> db.rows == old(db.rows) && db.contents == old(db.contents)
    ensures old(db.rows) == [] ==> db.rows == RowsLeft(contents, draws, cohorts, fate)
    ensures old(db.rows) == [] ==> db.contents == ContentsLeft(old(db.contents), contents, |draws|, fate)
  {
    if db.rows != [] {
      return;
    }
    db.AddContents(contents);
    var rows, ok := BulkLoop(db, contents, draws, fate);
    if !ok || fate == Raises(|draws|) {
      db.Close();
      return;
    }
    Finish(db, contents, draws, rows, cohorts);
  }

  /** The last commit: the rest of the loop's rows, and the cohorts. */
  method Finish(db: Database, contents: seq<Content>, draws: seq<Draw>, rows: seq<Row>, cohorts: seq<Row>)
    requires Catalogue(contents) && db.added == []
    requires db.rows == Stretch(contents, draws, 0, Batched(|draws|)) && rows == Stretch(contents, draws, Batched(|draws|), |draws|)
    modifies db
    ensures db.added == [] && db.addedContents == [] && db.rows == Produced(contents, draws) + cohorts
    ensures db.contents == old(db.contents) + old(db.addedContents)
  {
    StretchesJoin(contents, draws, Batched(|draws|), |draws|);
    WholeStretch(contents, draws);
    ghost var committed := db.rows;
    db.AddRows(rows + cohorts);
    db.Commit();
    assert committed + (rows + cohorts) == (committed + rows) + cohorts;
  }

  /** What a call leaves in a database that held no synthetic rows. */
  function RowsLeft(contents: seq<Content>, draws: seq<Draw>, cohorts: seq<Row>, fate: Fate): seq<Row>
    requires Catalogue(contents)
  {
    if Completes(|draws|, fate) then Produced(contents, draws) + cohorts
    else Stretch(contents, draws, 0, Kept(|draws|, fate))
  }

  /** The contents are committed together with the first batch. */
  function ContentsLeft(earlier: seq<Content>, contents: seq<Content>, count: nat, fate: Fate): seq<Content> {
    if Completes(count, fate) || Kept(count, fate) > 0 then earlier + contents else earlier
  }

  lemma WholeStretch(contents: seq<Content>, draws: seq<Draw>)
    requires Catalogue(contents)
    ensures Stretch(contents, draws, 0, |draws|) == Produced(contents, draws)
  {
  }

  /** A call on the rows an earlier call left: nothing if there are any, the whole again if not. */
  function After(contents: seq<Content>, draws: seq<Draw>, cohorts: seq<Row>, first: Fate, second: Fate): seq<Row>
    requires Catalogue(contents)
  {
    var left := RowsLeft(contents, draws, cohorts, first);
    if left != [] then left else RowsLeft(contents, draws, cohorts, second)
  }

  /** The times are strictly increasing, the numbers are consecutive, and no row is older than its
      content, which is one of the catalogue. */
  lemma ProducedIsChronological(contents: seq<Content>, draws: seq<Draw>)
    requires Catalogue(contents) && forall d :: d in draws ==> Drawn(d)
    ensures var rows := Produced(contents, draws);
      && (forall i, j :: 0 <= i < j < |rows| ==> rows[i].time < rows[j].time)
      && (forall i :: 0 <= i < |rows| ==>
            rows[i].number == i + 1 && rows[i].content in contents && rows[i].content.created <= rows[i].time)
  {
    var rows := Produced(contents, draws);
    forall i, j | 0 <= i < j < |rows| ensures rows[i].time < rows[j].time {
      assert draws[i] in draws && draws[j] in draws;
    }
    forall i | 0 <= i < |rows| ensures rows[i].content in contents && rows[i].content.created <= rows[i].time {
      var available := Available(contents, rows[i].time);
      SomethingIsAvailable(contents, rows[i].time);
      assert rows[i].content in available;
    }
  }

  /** The available contents are those created by then, in catalogue order ... */
  lemma {:induction false} AvailableParts(a: seq<Content>, b: seq<Content>, time: int)
    ensures Available(a + b, time) == Available(a, time) + Available(b, time)
  {
    if b == [] {
      assert a + b == a;
    } else {
      AvailableParts(a, b[..|b| - 1], time);
      assert (a + b)[..|a + b| - 1] == a + b[..|b| - 1];
    }
  }

  /** ... and each row is the drawn one of them, at its own time. */
  lemma RowIsDrawn(contents: seq<Content>, draws: seq<Draw>, i: nat)
    requires Catalogue(contents) && i < |draws|
    ensures var row := Produced(contents, draws)[i];
      && row.number == i + 1 && row.time == 850 * i + draws[i].jitter
      && var available := Available(contents, 850 * i + draws[i].jitter);
         available != [] && row.content == available[draws[i].pick % |available|]
  {
    SomethingIsAvailable(contents, Time(i, draws[i]));
  }

  /** Batches are of a thousand rows. */
  lemma InterruptedKeepsThousands(contents: seq<Content>, draws: seq<Draw>, cohorts: seq<Row>, n: nat)
    requires Catalogue(contents) && n <= |draws|
    ensures RowsLeft(contents, draws, cohorts, Raises(n)) == Produced(contents, draws)[..n - n % 1000]
    ensures RowsLeft(contents, draws, cohorts, Finishes) == Produced(contents, draws) + cohorts
  {
  }

  /** No row lies beyond the reference time, whatever is drawn, exactly when at most 12197 are asked
      for; the default of 12000 is inside, and nothing in the code bounds the count. */
  lemma NeverInTheFutureIff(contents: seq<Content>, count: nat)
    requires Catalogue(contents)
    ensures (forall draws: seq<Draw> :: |draws| == count && (forall d :: d in draws ==> Drawn(d)) ==>
               forall row :: row in Produced(contents, draws) ==> row.time <= WINDOW)
            <==> count <= 12197
  {
    if count > 12197 {
      var draws := seq(count, i => Draw(600, 0));
      assert forall d :: d in draws ==> Drawn(d);
      assert Produced(contents, draws)[count - 1].time > WINDOW;
      assert Produced(contents, draws)[count - 1] in Produced(contents, draws);
    } else {
      forall draws: seq<Draw>, row | |draws| == count && (forall d :: d in draws ==> Drawn(d)) && row in Produced(contents, draws)
        ensures row.time <= WINDOW
      {
        var i :| 0 <= i < count && row == RowAt(contents, i, draws[i]);
        assert draws[i] in draws;
      }
    }
  }

  /** A call that raises can be made good by calling again exactly when it raised before its first
      commit: the presence of any synthetic row makes the second call insert nothing. */
  lemma RetryCompletesIff(contents: seq<Content>, draws: seq<Draw>, cohorts: seq<Row>, n: nat)
    requires Catalogue(contents) && n <= |draws| && cohorts != []
    ensures After(contents, draws, cohorts, Raises(n), Finishes) == RowsLeft(contents, draws, cohorts, Finishes)
            <==> n < BATCH
  {
    var left := RowsLeft(contents, draws, cohorts, Raises(n));
    assert |left| == Batched(n);
    assert |Produced(contents, draws)| == |draws|;
    if n >= BATCH {
      assert Batched(n) > 0;
      assert |left| < |RowsLeft(contents, draws, cohorts, Finishes)|;
    }
  }
}
