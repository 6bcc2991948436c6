/** Swapping the served model for the length of a block (app/benchmark/runner.py, use_model), the
    cache the service reads through (app/ml/model_cache.py), and the benchmark matrix built on
    them.  Running code under the patched paths and the cache is proved to mean the same as a
    plain lexically scoped reading that has neither. */
module ScopedModel {
  import opened Basics

  type Artifact = nat

  datatype Location = Location(dir: string, file: string)

  /** The pair of paths the service reads: service.MODEL_PATH and model_store.METADATA_PATH. */
  datatype Scope = Scope(model: Location, metadata: Location)

  datatype Content =
    | Model(artifact: Artifact)
    | Metadata(checksum: Artifact, compatible: bool)
    | Unreadable

  type Disk = map<Location, Content>

  /** The files one block saves its model to. */
  function Place(dir: string, algorithm: string): Scope {
    Scope(Location(dir, algorithm + "-model.joblib"), Location(dir, algorithm + "-metadata.json"))
  }

  predicate Overlap(a: Scope, b: Scope) {
    a.model in {b.model, b.metadata} || a.metadata in {b.model, b.metadata}
  }

  lemma SuffixesAreTellingApart(x: string, y: string)
    ensures x + "-model.joblib" != y + "-metadata.json"
    ensures x + "-model.joblib" == y + "-model.joblib" <==> x == y
    ensures x + "-metadata.json" == y + "-metadata.json" <==> x == y
  {
    var mx, my, nx, ny := x + "-model.joblib", y + "-model.joblib", x + "-metadata.json", y + "-metadata.json";
    assert mx[|mx| - 1] == 'b' && ny[|ny| - 1] == 'n';
    assert mx[..|x|] == x && my[..|y|] == y && nx[..|x|] == x && ny[..|y|] == y;
    assert |mx| == |x| + 13 && |my| == |y| + 13 && |nx| == |x| + 14 && |ny| == |y| + 14;
  }

  /** Two blocks write a common file exactly when both their directory and their algorithm agree. */
  lemma OverlapIffSamePlace(d: string, a: string, e: string, b: string)
    ensures Overlap(Place(d, a), Place(e, b)) <==> d == e && a == b
  {
    SuffixesAreTellingApart(a, b);
    SuffixesAreTellingApart(b, a);
  }

  /** model_store.load_validated: None stands for every way it raises. */
  function Load(disk: Disk, s: Scope): Option<Artifact> {
    if s.model in disk && s.metadata in disk && disk[s.model].Model? && disk[s.metadata].Metadata?
       && disk[s.metadata].compatible && disk[s.metadata].checksum == disk[s.model].artifact
    then Some(disk[s.model].artifact) else None
  }

  /** A pair loads exactly if both files are readable, of compatible schema and of one checksum. */
  lemma LoadsIff(disk: Disk, s: Scope, a: Artifact)
    ensures Load(disk, s) == Some(a) <==>
      s.model in disk && disk[s.model] == Model(a) && s.metadata in disk && disk[s.metadata] == Metadata(a, true)
  {
  }

  // ----- files with signatures, and the cache -----

  /** The stamp is what a cached signature remembers of a file: its modification time and size. */
  datatype File = File(content: Content, stamp: nat)
  datatype Entry = Entry(modelStamp: nat, metadataStamp: nat, artifact: Artifact)

  function Contents(files: map<Location, File>): Disk {
    map l | l in files :: files[l].content
  }

  predicate Fresh(files: map<Location, File>, s: Scope, e: Entry) {
    s.model in files && s.metadata in files
    && files[s.model].stamp == e.modelStamp && files[s.metadata].stamp == e.metadataStamp
  }

  /** What ModelCache.get answers. */
  function Answer(files: map<Location, File>, entries: map<Scope, Entry>, s: Scope): Option<Artifact> {
    if s in entries && Fresh(files, s, entries[s]) then Some(entries[s].artifact) else Load(Contents(files), s)
  }

  ghost predicate Coherent(files: map<Location, File>, entries: map<Scope, Entry>, now: nat) {
    && (forall l :: l in files ==> files[l].stamp <= now)
    && (forall s :: s in entries ==> entries[s].modelStamp <= now && entries[s].metadataStamp <= now)
    && (forall s :: s in entries && Fresh(files, s, entries[s]) ==>
          Load(Contents(files), s) == Some(entries[s].artifact))
  }

  // ----- saving -----

  /** Where a save fails, if it does: the model is swapped in before its metadata. */
  datatype Save = Complete | BeforeSwap | BetweenSwaps

  function Saved(disk: Disk, place: Scope, model: Artifact, save: Save): Disk {
    match save
    case Complete => disk[place.model := Model(model)][place.metadata := Metadata(model, true)]
    case BeforeSwap => disk
    case BetweenSwaps => disk[place.model := Model(model)]
  }

  function SavedFiles(files: map<Location, File>, place: Scope, model: Artifact, save: Save, stamp: nat)
    : (r: map<Location, File>)
    ensures Contents(r) == Saved(Contents(files), place, model, save)
  {
    match save
    case Complete => files[place.model := File(Model(model), stamp)][place.metadata := File(Metadata(model, true), stamp)]
    case BeforeSwap => files
    case BetweenSwaps => files[place.model := File(Model(model), stamp)]
  }

  /** A save that dies between its two swaps leaves the cache in place.  What the cache then answers
      for that place is right exactly when the new file's stamp differs from the one it remembers
      or the model is the same. */
  lemma TornSaveIsNoticedIff(files: map<Location, File>, entries: map<Scope, Entry>, now: nat,
                             place: Scope, model: Artifact, stamp: nat)
    requires Coherent(files, entries, now) && place.model != place.metadata
    requires place in entries && Fresh(files, place, entries[place])
    ensures var torn := SavedFiles(files, place, model, BetweenSwaps, stamp);
      Answer(torn, entries, place) == Load(Contents(torn), place)
      <==> stamp != files[place.model].stamp || model == entries[place].artifact
  {
    var torn := SavedFiles(files, place, model, BetweenSwaps, stamp);
    assert Load(Contents(files), place) == Some(entries[place].artifact);
    assert Contents(torn)[place.metadata] == Contents(files)[place.metadata];
  }

  // ----- code that uses models -----

  /** Code over the service: score once, fail, run one thing after another, recover from an
      exception, or run a body inside use_model.  A clock tick since the last write is part of it. */
  datatype Code =
    | Score
    | Raise
    | Then(first: Code, second: Code)
    | Recover(body: Code)
    | Use(dir: string, algorithm: string, model: Artifact, save: Save, elapsed: nat, body: Code)

  datatype Run = Run(disk: Disk, seen: seq<Artifact>, ok: bool)

  /** The plain reading: the scope is a parameter of the code, and there is no cache. */
  function Meaning(code: Code, disk: Disk, scope: Scope): Run {
    match code
    case Score =>
      (match Load(disk, scope)
       case Some(artifact) => Run(disk, [artifact], true)
       case None => Run(disk, [], false))
    case Raise => Run(disk, [], false)
    case Then(first, second) =>
      var a := Meaning(first, disk, scope);
      if !a.ok then a else
      var b := Meaning(second, a.disk, scope);
      b.(seen := a.seen + b.seen)
    case Recover(body) => Meaning(body, disk, scope).(ok := true)
    case Use(dir, algorithm, model, save, _, body) =>
      var saved := Saved(disk, Place(dir, algorithm), model, save);
      if save != Complete then Run(saved, [], false) else Meaning(body, saved, Place(dir, algorithm))
  }

  /** A raise, a score that cannot be taken and a save that fails end the code they are in ... */
  lemma WhatRaises(disk: Disk, scope: Scope)
    ensures Meaning(Raise, disk, scope) == Run(disk, [], false)
    ensures Load(disk, scope).None? ==> Meaning(Score, disk, scope) == Run(disk, [], false)
    ensures Load(disk, scope).Some? ==> Meaning(Score, disk, scope) == Run(disk, [Load(disk, scope).value], true)
  {
  }

  lemma FailedSaveRaises(c: Code, disk: Disk, scope: Scope)
    requires c.Use? && !c.save.Complete?
    ensures c.save.BeforeSwap? ==> Meaning(c, disk, scope) == Run(disk, [], false)
    ensures c.save.BetweenSwaps? ==>
      Meaning(c, disk, scope) == Run(disk[Place(c.dir, c.algorithm).model := Model(c.model)], [], false)
  {
  }

  /** ... and everything after it, up to the nearest recovery. */
  lemma ExceptionsEndTheRest(c: Code, d: Code, disk: Disk, scope: Scope)
    ensures var first := Meaning(c, disk, scope);
      var second := Meaning(d, first.disk, scope);
      Meaning(Then(c, d), disk, scope) ==
        if first.ok then Run(second.disk, first.seen + second.seen, second.ok) else first
  {
  }

  lemma RecoveryGoesOn(c: Code, disk: Disk, scope: Scope)
    ensures var body := Meaning(c, disk, scope); Meaning(Recover(c), disk, scope) == Run(body.disk, body.seen, true)
  {
  }

  /** The clock has moved on before every save that dies between its swaps. */
  predicate Ticks(code: Code) {
    match code
    case Score => true
    case Raise => true
    case Then(first, second) => Ticks(first) && Ticks(second)
    case Recover(body) => Ticks(body)
    case Use(_, _, _, save, elapsed, body) => (save.BetweenSwaps? ==> elapsed > 0) && Ticks(body)
  }

  class Service {
    var modelPath: Location
    var metadataPath: Location
    var files: map<Location, File>
    var entries: map<Scope, Entry>
    var now: nat

    ghost predicate Valid() reads this { Coherent(files, entries, now) }
    function Current(): Scope reads this { Scope(modelPath, metadataPath) }
    function Disk(): Disk reads this { Contents(files) }

    constructor (scope: Scope, files: map<Location, File>, now: nat)
      requires forall l :: l in files ==> files[l].stamp <= now
      ensures Valid() && Current() == scope && this.files == files
    {
      modelPath, metadataPath, this.files, entries, this.now := scope.model, scope.metadata, files, map[], now;
    }

    /** ModelCache.get at the current paths, with no other writer. */
    method Get() returns (r: Option<Artifact>)
      requires Valid()
      modifies this`entries
      ensures Valid()
      ensures r == Answer(files, old(entries), Current()) == Load(Disk(), Current())
    {
      var key := Current();
      if key.model !in files || key.metadata !in files {
        entries := entries - {key};
        return None;
      }
      if key in entries && Fresh(files, key, entries[key]) {
        return Some(entries[key].artifact);
      }
      r := Load(Contents(files), key);
      if r.Some? {
        entries := entries[key := Entry(files[key.model].stamp, files[key.metadata].stamp, r.value)];
      }
    }

    /** use_model up to its yield.  Nothing is patched when the save fails. */
    method Enter(place: Scope, model: Artifact, save: Save, elapsed: nat) returns (previous: Option<Scope>)
      requires Valid() && (save.BetweenSwaps? ==> elapsed > 0)
      modifies this
      ensures Valid() && Disk() == Saved(old(Disk()), place, model, save)
      ensures previous == if save.Complete? then Some(old(Current())) else None
      ensures Current() == if save.Complete? then place else old(Current())
    {
      now := now + elapsed;
      ghost var before := files;
      files := SavedFiles(files, place, model, save, now);
      if save != Complete {
        if save.BetweenSwaps? { KeepsCoherence(before, entries, now, place, model); }
        return None;
      }
      previous := Some(Current());
      modelPath, metadataPath := place.model, place.metadata;
      entries := map[];
    }

    /** The finally block of use_model. */
    method Leave(previous: Scope)
      requires Valid()
      modifies this
      ensures Valid() && Current() == previous && files == old(files) && entries == map[]
    {
      modelPath, metadataPath := previous.model, previous.metadata;
      entries := map[];
    }

    /** Whatever the nesting and whatever raises, the paths on exit are those on entry, and every
        score is taken with the artifact the plain reading gives it. */
    method Execute(code: Code) returns (seen: seq<Artifact>, ok: bool)
      requires Valid() && Ticks(code)
      modifies this
      decreases code
      ensures Valid() && Current() == old(Current())
      ensures Run(Disk(), seen, ok) == Meaning(code, old(Disk()), old(Current()))
    {
      match code
      case Score =>
        var artifact := Get();
        ok := artifact.Some?;
        seen := if ok then [artifact.value] else [];
      case Raise =>
        seen, ok := [], false;
      case Then(first, second) =>
        seen, ok := Execute(first);
        if ok {
          var more;
          more, ok := Execute(second);
          seen := seen + more;
        }
      case Recover(body) =>
        seen, ok := Execute(body);
        ok := true;
      case Use(dir, algorithm, model, save, elapsed, body) =>
        var previous := Enter(Place(dir, algorithm), model, save, elapsed);
        if previous.None? {
          return [], false;
        }
        seen, ok := Execute(body);
        Leave(previous.value);
    }
  }

  lemma KeepsCoherence(files: map<Location, File>, entries: map<Scope, Entry>, now: nat, place: Scope, model: Artifact)
    requires now > 0 && Coherent(files, entries, now - 1)
    ensures Coherent(SavedFiles(files, place, model, BetweenSwaps, now), entries, now)
  {
    var torn := SavedFiles(files, place, model, BetweenSwaps, now);
    forall s | s in entries && Fresh(torn, s, entries[s])
      ensures Load(Contents(torn), s) == Some(entries[s].artifact)
    {
      assert s.model != place.model && s.metadata != place.model;
      assert Fresh(files, s, entries[s]);
    }
  }

  // ----- which model each score sees -----

  /** Some block of the code, however deep, writes a file of the scope. */
  predicate Touches(code: Code, scope: Scope) {
    match code
    case Score => false
    case Raise => false
    case Then(first, second) => Touches(first, scope) || Touches(second, scope)
    case Recover(body) => Touches(body, scope)
    case Use(dir, algorithm, _, _, _, body) => Overlap(Place(dir, algorithm), scope) || Touches(body, scope)
  }

  /** No block is written to again while it is in use. */
  predicate Undisturbed(code: Code) {
    match code
    case Score => true
    case Raise => true
    case Then(first, second) => Undisturbed(first) && Undisturbed(second)
    case Recover(body) => Undisturbed(body)
    case Use(dir, algorithm, _, _, _, body) => !Touches(body, Place(dir, algorithm)) && Undisturbed(body)
  }

  /** The scores by the text of the code alone: each is taken with the model of the innermost block
      around it, and outside any block with the one served from the start. */
  function Textual(code: Code, served: Option<Artifact>): (seq<Artifact>, bool) {
    match code
    case Score => if served.Some? then ([served.value], true) else ([], false)
    case Raise => ([], false)
    case Then(first, second) =>
      var a := Textual(first, served);
      if !a.1 then a else
      var b := Textual(second, served);
      (a.0 + b.0, b.1)
    case Recover(body) => (Textual(body, served).0, true)
    case Use(_, _, model, save, _, body) => if save != Complete then ([], false) else Textual(body, Some(model))
  }

  lemma {:induction false} UntouchedFilesStay(code: Code, disk: Disk, scope: Scope, other: Scope)
    requires !Touches(code, other)
    ensures Load(Meaning(code, disk, scope).disk, other) == Load(disk, other)
  {
    match code
    case Score =>
    case Raise =>
    case Then(first, second) =>
      UntouchedFilesStay(first, disk, scope, other);
      UntouchedFilesStay(second, Meaning(first, disk, scope).disk, scope, other);
    case Recover(body) => UntouchedFilesStay(body, disk, scope, other);
    case Use(dir, algorithm, model, save, _, body) =>
      var place := Place(dir, algorithm);
      var saved := Saved(disk, place, model, save);
      assert Load(saved, other) == Load(disk, other);
      UntouchedFilesStay(body, saved, place, other);
  }

  lemma SavedIsLoaded(disk: Disk, dir: string, algorithm: string, model: Artifact)
    ensures Load(Saved(disk, Place(dir, algorithm), model, Complete), Place(dir, algorithm)) == Some(model)
  {
    SuffixesAreTellingApart(algorithm, algorithm);
  }

  /** Every score inside a block is taken with that block's own model, whatever is on disk and
      whatever ran before, as long as no block is written to again while in use. */
  lemma {:induction false} InnermostModelIsScored(code: Code, disk: Disk, scope: Scope)
    requires Undisturbed(code) && !Touches(code, scope)
    ensures var r := Meaning(code, disk, scope);
      (r.seen, r.ok) == Textual(code, Load(disk, scope)) && Load(r.disk, scope) == Load(disk, scope)
  {
    UntouchedFilesStay(code, disk, scope, scope);
    match code
    case Score =>
    case Raise =>
    case Then(first, second) =>
      InnermostModelIsScored(first, disk, scope);
      InnermostModelIsScored(second, Meaning(first, disk, scope).disk, scope);
    case Recover(body) => InnermostModelIsScored(body, disk, scope);
    case Use(dir, algorithm, model, save, _, body) =>
      if save == Complete {
        SavedIsLoaded(disk, dir, algorithm, model);
        InnermostModelIsScored(body, Saved(disk, Place(dir, algorithm), model, save), Place(dir, algorithm));
      }
  }

  /** The paths are restored, the files are not: after an inner block, the outer block goes on with
      its own model exactly when the inner one was saved elsewhere or saved the same model. */
  lemma OuterModelReturnsIff(dir: string, algorithm: string, model: Artifact, e: nat, inner: Code, disk: Disk, scope: Scope)
    requires inner.Use? && inner.save.Complete?
    requires !Touches(inner.body, Place(dir, algorithm)) && !Touches(inner.body, Place(inner.dir, inner.algorithm))
    ensures var r := Meaning(Use(dir, algorithm, model, Complete, e, Then(Recover(inner), Score)), disk, scope);
      r.ok && r.seen != []
      && (r.seen[|r.seen| - 1] == model
          <==> dir != inner.dir || algorithm != inner.algorithm || model == inner.model)
  {
    var outer, place := Place(dir, algorithm), Place(inner.dir, inner.algorithm);
    var saved := Saved(disk, outer, model, Complete);
    var again := Saved(saved, place, inner.model, Complete);
    SavedIsLoaded(disk, dir, algorithm, model);
    SavedIsLoaded(saved, inner.dir, inner.algorithm, inner.model);
    OverlapIffSamePlace(inner.dir, inner.algorithm, dir, algorithm);
    UntouchedFilesStay(inner.body, again, place, outer);
    var after := Meaning(inner, saved, outer).disk;
    assert Load(after, outer) == Load(again, outer);
    if !Overlap(place, outer) {
      assert Load(again, outer) == Load(saved, outer);
    }
    var recovered := Meaning(Recover(inner), saved, outer);
    assert recovered.disk == after && recovered.ok;
    assert Load(after, outer).Some?;
    var last := Meaning(Score, after, outer);
    assert last.seen == [Load(after, outer).value] && last.ok;
    var both := Then(Recover(inner), Score);
    assert Meaning(both, saved, outer).seen == recovered.seen + last.seen;
    assert Meaning(Use(dir, algorithm, model, Complete, e, both), disk, scope) == Meaning(both, saved, outer);
  }

  // ----- the benchmark matrix -----

  type Row = string

  /** A benchmark scenario: the history it is seeded with. */
  datatype Scenario = Scenario(id: string, history: seq<Row>)

  /** The scenarios of the matrix: the named ones, the dominant-category one, and the two pairs. */
  datatype Suite = Suite(named: seq<Scenario>, dominant: Scenario, t0: Scenario, t1: Scenario,
                         sameSubtheme: Scenario, diverseSubthemes: Scenario)

  function InOrder(suite: Suite): seq<Scenario> {
    suite.named + [suite.dominant, suite.t0, suite.t1, suite.sameSubtheme, suite.diverseSubthemes]
  }

  /** Seeding and scoring, as a function of all the rows in the database and of the artifact served;
      None when it raises.  `R` is the whole result record. */
  type Scorer<!R> = (seq<Row>, Artifact, Scenario) -> Option<R>

  /** What the matrix holds for one algorithm. */
  datatype Cell<R> = Cell(scenarios: map<string, R>, dominant: R, t0: R, t1: R, sameSubtheme: R, diverseSubthemes: R)

  /** Results keyed by their scenario's id; a later one replaces an earlier one. */
  function ById<R>(scenarios: seq<Scenario>, results: seq<R>): map<string, R>
    requires |scenarios| == |results|
  {
    if scenarios == [] then map[] else
    var n := |scenarios| - 1;
    ById(scenarios[..n], results[..n])[scenarios[n].id := results[n]]
  }

  function Arranged<R>(suite: Suite, results: seq<R>): Cell<R>
    requires |results| == |InOrder(suite)|
  {
    var n := |suite.named|;
    Cell(ById(suite.named, results[..n]), results[n], results[n + 1], results[n + 2], results[n + 3], results[n + 4])
  }

  /** The in-memory database of isolated_session. */
  class Session {
    var rows: seq<Row>
    constructor ()
      ensures rows == []
    { rows := []; }

    method Seed(history: seq<Row>)
      modifies this
      ensures rows == old(rows) + history
    { rows := rows + history; }
  }

  datatype Training = Training(algorithm: string, model: Artifact, save: Save, elapsed: nat)

  /** What one algorithm's scenarios give by themselves, each on an empty database. */
  function Alone<R>(score: Scorer<R>, model: Artifact, scenarios: seq<Scenario>): (r: Option<seq<R>>)
    ensures r.Some? ==> |r.value| == |scenarios|
  {
    if scenarios == [] then Some([]) else
    var rest := Alone(score, model, scenarios[..|scenarios| - 1]);
    var last := scenarios[|scenarios| - 1];
    if rest.None? then None else
    match score(last.history, model, last)
    case None => None
    case Some(x) => Some(rest.value + [x])
  }

  predicate Completes<R>(score: Scorer<R>, t: Training, suite: Suite) {
    t.save == Complete && Alone(score, t.model, InOrder(suite)).Some?
  }

  /** The matrix of some algorithms, in no order: None as soon as any of them cannot be completed. */
  ghost predicate IsMatrix<R>(r: Option<map<string, Cell<R>>>, score: Scorer<R>, training: set<Training>, suite: Suite) {
    match r
    case None => exists t :: t in training && !Completes(score, t, suite)
    case Some(m) =>
      && m.Keys == (set t | t in training :: t.algorithm)
      && forall t :: t in training ==>
           Completes(score, t, suite) && m[t.algorithm] == Arranged(suite, Alone(score, t.model, InOrder(suite)).value)
  }

  /** run_scenario_isolated. */
  method RunScenarioIsolated<R>(service: Service, score: Scorer<R>, scenario: Scenario) returns (r: Option<R>)
    requires service.Valid()
    modifies service`entries
    ensures service.Valid()
    ensures var served := Load(service.Disk(), service.Current());
      r == if served.None? then None else score(scenario.history, served.value, scenario)
  {
    var db := new Session();
    db.Seed(scenario.history);
    var artifact := service.Get();
    if artifact.None? {
      return None;
    }
    assert db.rows == scenario.history;
    r := score(db.rows, artifact.value, scenario);
  }

  /** One iteration of run_full_matrix: the scenarios in a block of their own. */
  method RunAlgorithm<R>(service: Service, score: Scorer<R>, dir: string, t: Training, scenarios: seq<Scenario>)
    returns (r: Option<seq<R>>)
    requires service.Valid() && (t.save.BetweenSwaps? ==> t.elapsed > 0)
    modifies service
    ensures service.Valid() && service.Current() == old(service.Current())
    ensures r == if t.save.Complete? then Alone(score, t.model, scenarios) else None
  {
    var place := Place(dir + "/" + t.algorithm, t.algorithm);
    ghost var before := service.Disk();
    var previous := service.Enter(place, t.model, t.save, t.elapsed);
    if previous.None? {
      return None;
    }
    SavedIsLoaded(before, dir + "/" + t.algorithm, t.algorithm, t.model);
    r := Some([]);
    var k := 0;
    while k < |scenarios| && r.Some?
      invariant k <= |scenarios| && service.Valid() && service.Current() == place
      invariant Load(service.Disk(), place) == Some(t.model)
      invariant r == Alone(score, t.model, scenarios[..k])
    {
      var x := RunScenarioIsolated(service, score, scenarios[k]);
      assert scenarios[..k + 1][..k] == scenarios[..k];
      r := if x.Some? then Some(r.value + [x.value]) else None;
      k := k + 1;
    }
    service.Leave(previous.value);
    assert scenarios[..|scenarios|] == scenarios;
    if r.None? {
      FailureSpreads(score, t.model, scenarios, k);
    }
  }

  function Trained(training: seq<Training>): set<Training> {
    set t | t in training
  }

  lemma MatrixGrows<R>(m: map<string, Cell<R>>, score: Scorer<R>, done: seq<Training>, t: Training, suite: Suite)
    requires Completes(score, t, suite) && forall u :: u in done ==> u.algorithm != t.algorithm
    requires IsMatrix(Some(m), score, Trained(done), suite)
    ensures IsMatrix(Some(m[t.algorithm := Arranged(suite, Alone(score, t.model, InOrder(suite)).value)]),
                     score, Trained(done + [t]), suite)
  {
    assert Trained(done + [t]) == Trained(done) + {t};
  }

  /** run_full_matrix.  The training results are a dictionary, so algorithm names are distinct. */
  method RunFullMatrix<R>(service: Service, score: Scorer<R>, dir: string, training: seq<Training>, suite: Suite)
    returns (r: Option<map<string, Cell<R>>>)
    requires service.Valid()
    requires forall i, j :: 0 <= i < j < |training| ==> training[i].algorithm != training[j].algorithm
    requires forall t :: t in training && t.save.BetweenSwaps? ==> t.elapsed > 0
    modifies service
    ensures service.Valid() && service.Current() == old(service.Current())
    ensures IsMatrix(r, score, Trained(training), suite)
  {
    var m: map<string, Cell<R>> := map[];
    for i := 0 to |training|
      invariant service.Valid() && service.Current() == old(service.Current())
      invariant IsMatrix(Some(m), score, Trained(training[..i]), suite)
    {
      assert training[i] in training;
      var results := RunAlgorithm(service, score, dir, training[i], InOrder(suite));
      if results.None? {
        assert !Completes(score, training[i], suite);
        return None;
      }
      MatrixGrows(m, score, training[..i], training[i], suite);
      assert training[..i + 1] == training[..i] + [training[i]];
      m := m[training[i].algorithm := Arranged(suite, results.value)];
    }
    assert training[..|training|] == training;
    r := Some(m);
  }

  lemma {:induction false} FailureSpreads<R>(score: Scorer<R>, model: Artifact, scenarios: seq<Scenario>, k: nat)
    requires k <= |scenarios| && Alone(score, model, scenarios[..k]).None?
    ensures Alone(score, model, scenarios).None?
  {
    if k < |scenarios| {
      var shorter := scenarios[..|scenarios| - 1];
      assert shorter[..k] == scenarios[..k];
      FailureSpreads(score, model, shorter, k);
    } else {
      assert scenarios[..k] == scenarios;
    }
  }

  lemma {:induction false} AloneAt<R>(score: Scorer<R>, model: Artifact, scenarios: seq<Scenario>, k: nat)
    requires k < |scenarios| && Alone(score, model, scenarios).Some?
    ensures Some(Alone(score, model, scenarios).value[k]) == score(scenarios[k].history, model, scenarios[k])
  {
    if k < |scenarios| - 1 { AloneAt(score, model, scenarios[..|scenarios| - 1], k); }
  }

  lemma {:induction false} ByIdAt<R>(scenarios: seq<Scenario>, results: seq<R>, k: nat)
    requires |scenarios| == |results| && k < |scenarios|
    requires forall i, j :: 0 <= i < j < |scenarios| ==> scenarios[i].id != scenarios[j].id
    ensures scenarios[k].id in ById(scenarios, results) && ById(scenarios, results)[scenarios[k].id] == results[k]
  {
    var n := |scenarios| - 1;
    if k < n { ByIdAt(scenarios[..n], results[..n], k); }
  }

  /** Every entry of a cell is what its own scenario gives, alone on an empty database, with the
      algorithm's own model. */
  lemma CellHoldsEachAlone<R>(score: Scorer<R>, model: Artifact, suite: Suite, k: nat)
    requires Alone(score, model, InOrder(suite)).Some? && k < |suite.named|
    requires forall i, j :: 0 <= i < j < |suite.named| ==> suite.named[i].id != suite.named[j].id
    ensures var cell := Arranged(suite, Alone(score, model, InOrder(suite)).value);
      && suite.named[k].id in cell.scenarios
      && Some(cell.scenarios[suite.named[k].id]) == score(suite.named[k].history, model, suite.named[k])
  {
    var all, results := InOrder(suite), Alone(score, model, InOrder(suite)).value;
    AloneAt(score, model, all, k);
    ByIdAt(suite.named, results[..|suite.named|], k);
    assert all[k] == suite.named[k];
  }

  lemma CellHoldsThePairs<R>(score: Scorer<R>, model: Artifact, suite: Suite)
    requires Alone(score, model, InOrder(suite)).Some?
    ensures var cell := Arranged(suite, Alone(score, model, InOrder(suite)).value);
      && Some(cell.dominant) == score(suite.dominant.history, model, suite.dominant)
      && Some(cell.t0) == score(suite.t0.history, model, suite.t0)
      && Some(cell.t1) == score(suite.t1.history, model, suite.t1)
      && Some(cell.sameSubtheme) == score(suite.sameSubtheme.history, model, suite.sameSubtheme)
      && Some(cell.diverseSubthemes) == score(suite.diverseSubthemes.history, model, suite.diverseSubthemes)
  {
    var n := |suite.named|;
    AloneAt(score, model, InOrder(suite), n);
    AloneAt(score, model, InOrder(suite), n + 1);
    AloneAt(score, model, InOrder(suite), n + 2);
    AloneAt(score, model, InOrder(suite), n + 3);
    AloneAt(score, model, InOrder(suite), n + 4);
  }

  /** The order in which the algorithms are run does not matter. */
  lemma MatrixIsUnique<R>(r: Option<map<string, Cell<R>>>, q: Option<map<string, Cell<R>>>,
                          score: Scorer<R>, training: set<Training>, suite: Suite)
    requires IsMatrix(r, score, training, suite) && IsMatrix(q, score, training, suite)
    ensures r == q
  {
    if r.Some? && q.Some? {
      forall name | name in r.value ensures r.value[name] == q.value[name] {
        var t :| t in training && t.algorithm == name;
      }
      assert r.value.Keys == q.value.Keys;
      assert r.value == q.value;
    }
  }
}
