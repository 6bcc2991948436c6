/**
 What the model cache can see of the service's own file actions: the disk as a function of time while
 any sequence of promotions and rollbacks runs (app/ml/artifact_lifecycle.py under
 app/ml/model_cache.py).

 A model file carries the stamp it was saved with wherever it is renamed to; a metadata file on the
 active path is newly written by the action that put it there.
 */
module ServiceHistories {
  import opened Basics
  import opened Artifacts
  import TrainingProtocol
  import TrainingSerial
  import ScopedModel
  import ModelCache

  type Key = k: ScopedModel.Scope | k.model != k.metadata
    witness ScopedModel.Scope(ScopedModel.Location("models", "model"), ScopedModel.Location("models", "metadata"))

  /** Actions from some files on, and how many of them have happened at each instant. */
  datatype Course = Course(base: Files, acts: seq<FileAction>, at: nat -> nat)

  ghost predicate Forward(c: Course) {
    forall i: nat, j: nat :: i <= j ==> c.at(i) <= c.at(j)
  }

  function Done(c: Course, t: nat): (n: nat)
    ensures n <= |c.acts|
  {
    if c.at(t) <= |c.acts| then c.at(t) else |c.acts|
  }

  function FilesAfter(base: Files, acts: seq<FileAction>, n: nat): Files
    requires n <= |acts|
  {
    Play(base, acts[..n])
  }

  lemma AfterOneMore(base: Files, acts: seq<FileAction>, n: nat)
    requires n < |acts|
    ensures FilesAfter(base, acts, n + 1) == Apply(FilesAfter(base, acts, n), acts[n])
  {
    PlayStep(base, acts, n);
  }

  predicate ChangesMeta(f: Files, a: FileAction) {
    (a.RetireMeta? || a.ActivateStaged?) && Possible(f, a)
  }

  /** The number of the action that put the active metadata there, or took it away. */
  function MetaStamp(base: Files, acts: seq<FileAction>, n: nat): nat
    requires n <= |acts|
  {
    if n == 0 then 0
    else if ChangesMeta(FilesAfter(base, acts, n - 1), acts[n - 1]) then n
    else MetaStamp(base, acts, n - 1)
  }

  function ModelFile(f: Files, key: Key): map<ScopedModel.Location, ScopedModel.File> {
    if f.activeModel.None? then map[]
    else map[key.model := ScopedModel.File(ScopedModel.Model(f.activeModel.value), f.activeModel.value)]
  }

  function MetaFile(f: Files, stamp: nat, key: Key): map<ScopedModel.Location, ScopedModel.File> {
    if f.activeMeta.None? then map[]
    else map[key.metadata := ScopedModel.File(ScopedModel.Metadata(f.activeMeta.value, true), stamp)]
  }

  function DiskAfter(c: Course, key: Key, n: nat): ModelCache.Files
    requires n <= |c.acts|
  {
    var f := FilesAfter(c.base, c.acts, n);
    ModelFile(f, key) + MetaFile(f, MetaStamp(c.base, c.acts, n), key)
  }

  /** The active pair as the cache sees it. */
  function HistoryOf(c: Course, key: Key): ModelCache.History {
    (t: nat) => DiskAfter(c, key, Done(c, t))
  }

  lemma Seen(c: Course, key: Key, t: nat)
    ensures var h, f := HistoryOf(c, key), FilesAfter(c.base, c.acts, Done(c, t));
      && (key.model in h(t) <==> f.activeModel.Some?)
      && (key.model in h(t) ==>
            h(t)[key.model] == ScopedModel.File(ScopedModel.Model(f.activeModel.value), f.activeModel.value))
      && (key.metadata in h(t) <==> f.activeMeta.Some?)
      && (key.metadata in h(t) ==>
            h(t)[key.metadata] == ScopedModel.File(ScopedModel.Metadata(f.activeMeta.value, true),
                                                   MetaStamp(c.base, c.acts, Done(c, t))))
  {
  }

  /** A load at one instant is the status of the active pair. */
  lemma LoadIsActive(c: Course, key: Key, t: nat)
    ensures var status := Active(FilesAfter(c.base, c.acts, Done(c, t)));
      ModelCache.LoadAt(HistoryOf(c, key), key, t) == if status.Ready? then Some(status.id) else None
  {
    Seen(c, key, t);
  }

  // ----- stamps tell, whatever the actions -----

  lemma {:induction false} MetaStampGrows(base: Files, acts: seq<FileAction>, i: nat, j: nat)
    requires i <= j <= |acts|
    ensures MetaStamp(base, acts, i) <= MetaStamp(base, acts, j) <= j
    ensures MetaStamp(base, acts, i) == MetaStamp(base, acts, j) ==>
      FilesAfter(base, acts, i).activeMeta == FilesAfter(base, acts, j).activeMeta
    ensures forall s: nat :: i <= s < j && ChangesMeta(FilesAfter(base, acts, s), acts[s]) ==>
      MetaStamp(base, acts, i) < MetaStamp(base, acts, j)
  {
    if i < j {
      MetaStampGrows(base, acts, i, j - 1);
      AfterOneMore(base, acts, j - 1);
    } else if j > 0 {
      MetaStampGrows(base, acts, j - 1, j - 1);
    }
  }

  /** Every history of file actions, overlapping and interrupted ones included, is one on which stamps
      tell: what the cache's guarantees ask of the disk. */
  lemma StampsTellAlways(c: Course, key: Key)
    requires Forward(c)
    ensures ModelCache.StampsTell(HistoryOf(c, key), key)
  {
    var h := HistoryOf(c, key);
    forall i: nat, j: nat ensures ModelCache.SameIfStamped(h, key.model, i, j) {
      Seen(c, key, i);
      Seen(c, key, j);
    }
    forall i: nat, j: nat, k: nat | i <= k <= j ensures ModelCache.Steady(h, key.metadata, i, j, k) {
      Seen(c, key, i);
      Seen(c, key, j);
      Seen(c, key, k);
      assert c.at(i) <= c.at(k) <= c.at(j);
      MetaStampGrows(c.base, c.acts, Done(c, i), Done(c, k));
      MetaStampGrows(c.base, c.acts, Done(c, k), Done(c, j));
    }
  }

  // ----- how a model comes back -----

  function Slots(f: Files): set<ArtifactId> {
    (if f.activeModel.Some? then {f.activeModel.value} else {})
    + (if f.previousModel.Some? then {f.previousModel.value} else {})
    + (if f.candidateModel.Some? then {f.candidateModel.value} else {})
  }

  /** No model file is in two places. */
  predicate Apart(f: Files) {
    && (f.activeModel.Some? ==> f.activeModel != f.previousModel && f.activeModel != f.candidateModel)
    && (f.previousModel.Some? ==> f.previousModel != f.candidateModel)
  }

  /** Every save is of a model that was never there before. */
  ghost predicate FreshSaves(base: Files, acts: seq<FileAction>) {
    && Apart(base)
    && (forall i :: 0 <= i < |acts| && acts[i].SaveModel? ==> acts[i].id !in Slots(base))
    && (forall i, j :: 0 <= i < j < |acts| && acts[i].SaveModel? && acts[j].SaveModel? ==> acts[i].id != acts[j].id)
  }

  lemma {:induction false} KnownModels(base: Files, acts: seq<FileAction>, n: nat, x: ArtifactId)
    requires FreshSaves(base, acts) && n <= |acts|
    ensures Apart(FilesAfter(base, acts, n))
    ensures x in Slots(FilesAfter(base, acts, n)) ==> x in Slots(base) || exists i :: 0 <= i < n && acts[i] == SaveModel(x)
  {
    if n > 0 {
      KnownModels(base, acts, n - 1, x);
      AfterOneMore(base, acts, n - 1);
      if acts[n - 1].SaveModel? {
        KnownModels(base, acts, n - 1, acts[n - 1].id);
      }
    }
  }

  /** Not a candidate, and never saved again. */
  ghost predicate Settled(base: Files, acts: seq<FileAction>, n: nat, x: ArtifactId)
    requires n <= |acts|
  {
    && FilesAfter(base, acts, n).candidateModel != Some(x)
    && forall i :: n <= i < |acts| ==> acts[i] != SaveModel(x)
  }

  lemma ActiveIsSettled(base: Files, acts: seq<FileAction>, n: nat, x: ArtifactId)
    requires FreshSaves(base, acts) && n <= |acts| && FilesAfter(base, acts, n).activeModel == Some(x)
    ensures Settled(base, acts, n, x)
  {
    KnownModels(base, acts, n, x);
  }

  lemma {:induction false} StaysSettled(base: Files, acts: seq<FileAction>, n: nat, m: nat, x: ArtifactId)
    requires n <= m <= |acts| && Settled(base, acts, n, x)
    ensures Settled(base, acts, m, x)
    ensures x !in Slots(FilesAfter(base, acts, n)) ==> x !in Slots(FilesAfter(base, acts, m))
  {
    if n < m {
      StaysSettled(base, acts, n, m - 1, x);
      AfterOneMore(base, acts, m - 1);
    }
  }

  /** A model that is active, not active, and active again left by a retirement and came back by a
      rollback's rename. */
  lemma {:induction false} Leaves(base: Files, acts: seq<FileAction>, p: nat, q: nat, r: nat, x: ArtifactId) returns (s: nat)
    requires FreshSaves(base, acts) && p <= q <= r <= |acts|
    requires FilesAfter(base, acts, p).activeModel == Some(x) && FilesAfter(base, acts, r).activeModel == Some(x)
    requires FilesAfter(base, acts, q).activeModel != Some(x)
    ensures p <= s < q && acts[s] == RetireModel && FilesAfter(base, acts, s).activeModel == Some(x)
    decreases q - p
  {
    if FilesAfter(base, acts, p + 1).activeModel == Some(x) {
      s := Leaves(base, acts, p + 1, q, r, x);
    } else {
      s := p;
      AfterOneMore(base, acts, p);
      ActiveIsSettled(base, acts, p, x);
      KnownModels(base, acts, p, x);
      StaysSettled(base, acts, p, p + 1, x);
      if acts[p] != RetireModel {
        StaysSettled(base, acts, p + 1, r, x);
        assert false;
      }
    }
  }

  lemma {:induction false} ComesBack(base: Files, acts: seq<FileAction>, q: nat, r: nat, x: ArtifactId) returns (s: nat)
    requires q <= r <= |acts| && Settled(base, acts, q, x)
    requires FilesAfter(base, acts, q).activeModel != Some(x) && FilesAfter(base, acts, r).activeModel == Some(x)
    ensures q <= s < r && acts[s] == ActivatePrevious && FilesAfter(base, acts, s).previousModel == Some(x)
  {
    if FilesAfter(base, acts, r - 1).activeModel != Some(x) {
      s := r - 1;
      AfterOneMore(base, acts, r - 1);
      StaysSettled(base, acts, q, r - 1, x);
    } else {
      s := ComesBack(base, acts, q, r - 1, x);
    }
  }

  // ----- when an attempt is interfered with -----

  /** Whoever retires a model next retires its metadata, if anything comes next. */
  ghost predicate RetiresInPairs(base: Files, acts: seq<FileAction>) {
    forall i: nat :: i + 1 < |acts| ==> PairAt(base, acts, i)
  }

  predicate PairAt(base: Files, acts: seq<FileAction>, i: nat)
    requires i + 1 < |acts|
  {
    acts[i].RetireModel? ==> acts[i + 1].RetireMeta? && ChangesMeta(FilesAfter(base, acts, i + 1), acts[i + 1])
  }

  lemma RetireFreesModel(base: Files, acts: seq<FileAction>, s: nat)
    requires s < |acts| && acts[s] == RetireModel && FilesAfter(base, acts, s).activeModel.Some?
    ensures FilesAfter(base, acts, s + 1).activeModel.None?
  {
    AfterOneMore(base, acts, s);
  }

  lemma ComesBackOverOtherMetadata(base: Files, acts: seq<FileAction>, p: nat, q: nat, r: nat, x: ArtifactId) returns (s: nat)
    requires FreshSaves(base, acts) && RetiresInPairs(base, acts) && p <= q <= r <= |acts|
    requires FilesAfter(base, acts, p).activeModel == Some(x) && FilesAfter(base, acts, r).activeModel == Some(x)
    requires FilesAfter(base, acts, q).activeModel != Some(x)
    ensures p <= s < q && s + 1 < r && acts[s] == RetireModel && acts[s + 1] == RetireMeta
    ensures ChangesMeta(FilesAfter(base, acts, s + 1), acts[s + 1])
    ensures MetaStamp(base, acts, p) < MetaStamp(base, acts, r)
  {
    s := Leaves(base, acts, p, q, r, x);
    RetireFreesModel(base, acts, s);
    assert PairAt(base, acts, s);
    MetaStampGrows(base, acts, p, r);
  }

  lemma ReturnsToOtherMetadataAlways(c: Course, key: Key)
    requires Forward(c) && FreshSaves(c.base, c.acts) && RetiresInPairs(c.base, c.acts)
    ensures ModelCache.ReturnsToOtherMetadata(HistoryOf(c, key), key)
  {
    var h := HistoryOf(c, key);
    forall i: nat, k: nat, j: nat | i <= k <= j ensures ModelCache.AwayOverMetadata(h, key, i, k, j) {
      Seen(c, key, i);
      Seen(c, key, k);
      Seen(c, key, j);
      if ModelCache.StampAt(h, key.model, i).Some? && ModelCache.StampAt(h, key.model, i) == ModelCache.StampAt(h, key.model, j)
         && ModelCache.StampAt(h, key.model, k) != ModelCache.StampAt(h, key.model, i) {
        assert c.at(i) <= c.at(k) <= c.at(j);
        var s := ComesBackOverOtherMetadata(c.base, c.acts, Done(c, i), Done(c, k), Done(c, j),
                                            ModelCache.StampAt(h, key.model, i).value);
      }
    }
  }

  lemma {:induction false} SomeoneCommits(base: Files, acts: seq<FileAction>, i: nat, j: nat) returns (m: nat)
    requires i <= j <= |acts| && FilesAfter(base, acts, i).activeMeta.None? && FilesAfter(base, acts, j).activeMeta.Some?
    ensures i <= m < j && acts[m] == ActivateStaged
  {
    AfterOneMore(base, acts, j - 1);
    if FilesAfter(base, acts, j - 1).activeMeta.None? {
      m := j - 1;
    } else {
      m := SomeoneCommits(base, acts, i, j - 1);
    }
  }

  lemma CommittedUnseen(base: Files, acts: seq<FileAction>, first: nat, second: nat, away: nat, last: nat, end: nat, x: ArtifactId)
    returns (retire: nat, commit: nat)
    requires FreshSaves(base, acts) && RetiresInPairs(base, acts) && first <= second <= away <= last <= end <= |acts|
    requires FilesAfter(base, acts, first).activeModel == Some(x) && FilesAfter(base, acts, last).activeModel == Some(x)
    requires FilesAfter(base, acts, away).activeModel != Some(x)
    requires FilesAfter(base, acts, second).activeMeta.Some? && MetaStamp(base, acts, second) == MetaStamp(base, acts, end)
    ensures first <= retire && retire + 1 < commit < second
    ensures acts[retire] == RetireModel && acts[retire + 1] == RetireMeta && acts[commit] == ActivateStaged
  {
    retire := ComesBackOverOtherMetadata(base, acts, first, away, last, x);
    MetaStampGrows(base, acts, second, end);
    AfterOneMore(base, acts, retire + 1);
    commit := SomeoneCommits(base, acts, retire + 2, second);
  }

  lemma RenamedBack(base: Files, acts: seq<FileAction>, first: nat, away: nat, last: nat, x: ArtifactId) returns (back: nat)
    requires FreshSaves(base, acts) && first <= away <= last <= |acts|
    requires FilesAfter(base, acts, first).activeModel == Some(x) && FilesAfter(base, acts, last).activeModel == Some(x)
    requires FilesAfter(base, acts, away).activeModel != Some(x)
    ensures away <= back < last && acts[back] == ActivatePrevious
  {
    ActiveIsSettled(base, acts, first, x);
    StaysSettled(base, acts, first, away, x);
    back := ComesBack(base, acts, away, last, x);
  }

  /** What an attempt that is stable and not smooth saw of the files. */
  lemma UnsmoothFiles(c: Course, key: Key, t: nat) returns (k: nat, x: ArtifactId)
    requires Forward(c)
    requires ModelCache.Stable(HistoryOf(c, key), key, t) && !ModelCache.Smooth(HistoryOf(c, key), key, t)
    ensures k in {t + 5, t + 6}
    ensures FilesAfter(c.base, c.acts, Done(c, t)).activeModel == Some(x)
    ensures FilesAfter(c.base, c.acts, Done(c, t + 7)).activeModel == Some(x)
    ensures FilesAfter(c.base, c.acts, Done(c, k)).activeModel != Some(x)
    ensures FilesAfter(c.base, c.acts, Done(c, t + 1)).activeMeta.Some?
    ensures MetaStamp(c.base, c.acts, Done(c, t + 1)) == MetaStamp(c.base, c.acts, Done(c, t + 8))
  {
    var h := HistoryOf(c, key);
    k := if ModelCache.ContentAt(h, key.model, t + 6) != ModelCache.ContentAt(h, key.model, t + 7) then t + 6 else t + 5;
    Seen(c, key, t);
    Seen(c, key, t + 1);
    Seen(c, key, k);
    Seen(c, key, t + 7);
    Seen(c, key, t + 8);
    x := ModelCache.StampAt(h, key.model, t).value;
  }

  lemma InOrder(c: Course, i: nat, j: nat)
    requires Forward(c) && i <= j
    ensures Done(c, i) <= Done(c, j)
  {
    assert c.at(i) <= c.at(j);
  }

  /** The only way an attempt of the cache is interfered with: a promotion retires the old pair and
      commits its metadata between the two looks of the first signature, and a rollback renames the
      old model back after the new one was hashed and before the last look at the model. */
  lemma InterferenceIsAPromotionAndARollback(c: Course, key: Key, t: nat) returns (retire: nat, commit: nat, back: nat)
    requires Forward(c) && FreshSaves(c.base, c.acts) && RetiresInPairs(c.base, c.acts)
    requires ModelCache.Stable(HistoryOf(c, key), key, t) && !ModelCache.Smooth(HistoryOf(c, key), key, t)
    ensures Done(c, t) <= retire && retire + 1 < commit < Done(c, t + 1) <= Done(c, t + 5) <= back < Done(c, t + 7)
    ensures c.acts[retire] == RetireModel && c.acts[retire + 1] == RetireMeta && c.acts[commit] == ActivateStaged
    ensures c.acts[back] == ActivatePrevious
  {
    var k, x := UnsmoothFiles(c, key, t);
    InOrder(c, t, t + 1);
    InOrder(c, t + 1, t + 5);
    InOrder(c, t + 5, k);
    InOrder(c, k, t + 7);
    InOrder(c, t + 7, t + 8);
    retire, commit := CommittedUnseen(c.base, c.acts, Done(c, t), Done(c, t + 1), Done(c, k), Done(c, t + 7), Done(c, t + 8), x);
    back := RenamedBack(c.base, c.acts, Done(c, t), Done(c, k), Done(c, t + 7), x);
  }

  /** No stable attempt up to `now` had its first two looks on either side of a metadata swap. */
  ghost predicate NoneStraddles(h: ModelCache.History, key: Key, now: nat) {
    forall u: nat :: u + 9 <= now && ModelCache.Stable(h, key, u) ==>
      ModelCache.StampAt(h, key.metadata, u) == ModelCache.StampAt(h, key.metadata, u + 1)
  }

  /** Under promotions and rollbacks that retire in pairs, every answer of the cache is true of the
      disk at a single instant of its call, unless some attempt straddled a metadata swap. */
  lemma CacheIsSoundOverTheService(c: Course, key: Key, kept: map<ScopedModel.Scope, ModelCache.Kept>, t: nat)
    requires Forward(c) && FreshSaves(c.base, c.acts) && RetiresInPairs(c.base, c.acts)
    requires ModelCache.AllMade(HistoryOf(c, key), kept, t)
    requires NoneStraddles(HistoryOf(c, key), key, ModelCache.Calls(HistoryOf(c, key), key, kept, t, ModelCache.MAX_LOAD_ATTEMPTS).now)
    ensures var h := HistoryOf(c, key);
      var got := ModelCache.Calls(h, key, kept, t, ModelCache.MAX_LOAD_ATTEMPTS);
      !got.reply.Busy? ==> ModelCache.Answers(h, key, got.reply, t, got.now)
  {
    var h := HistoryOf(c, key);
    StampsTellAlways(c, key);
    ReturnsToOtherMetadataAlways(c, key);
    forall u: nat | ModelCache.Stable(h, key, u)
      ensures ModelCache.StampAt(h, key.metadata, u) == ModelCache.StampAt(h, key.metadata, u + 1) ==> ModelCache.Smooth(h, key, u)
    {
      ModelCache.StraddledOrSmooth(h, key, u);
    }
    ModelCache.GetAnswers(h, key, kept, t, ModelCache.MAX_LOAD_ATTEMPTS);
  }

  // ----- the witness -----

  /** A whole promotion of `y` over `x`, and a rollback that stops at its second action. */
  function Undone(x: ArtifactId, y: ArtifactId): Course {
    Course(Files(Some(x), Some(x), None, None, None, None, None),
           PromotionActions(y, true) + [StageMeta(x), ActivatePrevious],
           (t: nat) => if t == 0 then 0 else if t <= 5 then 8 else 10)
  }

  lemma UndoneFiles(x: ArtifactId, y: ArtifactId, n: nat)
    requires n <= 10
    ensures var c := Undone(x, y);
      |c.acts| == 10 && FilesAfter(c.base, c.acts, n) ==
        if n <= 8 then Play(c.base, PromotionActions(y, true)[..n])
        else if n == 9 then Files(Some(y), Some(y), Some(x), Some(x), None, None, Some(x))
        else Files(Some(x), Some(y), None, Some(x), None, None, Some(x))
  {
    var c := Undone(x, y);
    if n <= 8 {
      assert c.acts[..n] == PromotionActions(y, true)[..n];
    } else {
      UndoneFiles(x, y, n - 1);
      ReplacementTrace(y, c.base, 8);
      AfterOneMore(c.base, c.acts, n - 1);
    }
  }

  lemma UndoneStamps(x: ArtifactId, y: ArtifactId, n: nat)
    requires 7 <= n <= 10
    ensures MetaStamp(Undone(x, y).base, Undone(x, y).acts, n) == 7
  {
    var c := Undone(x, y);
    UndoneFiles(x, y, n - 1);
    if n == 7 {
      ReplacementTrace(y, c.base, 6);
    } else {
      UndoneStamps(x, y, n - 1);
    }
  }

  /** What the looks of the cache meet. */
  lemma UndoneDisk(x: ArtifactId, y: ArtifactId, key: Key, t: nat)
    ensures var d := HistoryOf(Undone(x, y), key)(t);
      && key.model in d && key.metadata in d
      && d[key.model] == (if t == 0 || t > 5 then ScopedModel.File(ScopedModel.Model(x), x)
                          else ScopedModel.File(ScopedModel.Model(y), y))
      && (t > 0 ==> d[key.metadata] == ScopedModel.File(ScopedModel.Metadata(y, true), 7))
  {
    var c := Undone(x, y);
    UndoneFiles(x, y, Done(c, t));
    ReplacementTrace(y, c.base, 0);
    ReplacementTrace(y, c.base, 8);
    if t > 0 { UndoneStamps(x, y, Done(c, t)); }
    Seen(c, key, t);
  }

  lemma UndoneAttempt(x: ArtifactId, y: ArtifactId, key: Key)
    ensures var h := HistoryOf(Undone(x, y), key);
      && ModelCache.Stable(h, key, 0)
      && ModelCache.LoadFrom(h, key, 2) == ModelCache.Good(x, ScopedModel.File(ScopedModel.Metadata(y, true), 7))
      && ModelCache.StampAt(h, key.model, 0) == Some(x) && ModelCache.StampAt(h, key.metadata, 1) == Some(7)
      && ModelCache.ContentAt(h, key.model, 5) == Some(ScopedModel.Model(y))
      && ModelCache.ContentAt(h, key.model, 6) == Some(ScopedModel.Model(x))
  {
    UndoneDisk(x, y, key, 0);
    UndoneDisk(x, y, key, 1);
    UndoneDisk(x, y, key, 2);
    UndoneDisk(x, y, key, 3);
    UndoneDisk(x, y, key, 4);
    UndoneDisk(x, y, key, 5);
    UndoneDisk(x, y, key, 6);
    UndoneDisk(x, y, key, 7);
    UndoneDisk(x, y, key, 8);
  }

  /** The new one's metadata. */
  function MetaOf(y: ArtifactId): ScopedModel.File { ScopedModel.File(ScopedModel.Metadata(y, true), 7) }

  lemma UndoneTurn(x: ArtifactId, y: ArtifactId, key: Key)
    ensures ModelCache.Turn(HistoryOf(Undone(x, y), key), key, map[], 0)
         == ModelCache.Turned(Some(ModelCache.Found(x, MetaOf(y))), map[key := ModelCache.Kept(x, 7, x, MetaOf(y))], 9)
  {
    UndoneAttempt(x, y, key);
  }

  /** One attempt from the first instant on answers the old model with the metadata of the new one, a
      pair that was never on disk together, and remembers it. */
  lemma RollbackTearsThePair(x: ArtifactId, y: ArtifactId, key: Key)
    requires x != y
    ensures var h, torn := HistoryOf(Undone(x, y), key), ModelCache.Found(x, MetaOf(y));
      && Forward(Undone(x, y))
      && ModelCache.Turn(h, key, map[], 0)
         == ModelCache.Turned(Some(torn), map[key := ModelCache.Kept(x, 7, x, MetaOf(y))], 9)
      && forall t: nat :: !ModelCache.TrueAt(h, key, torn, t)
  {
    assert Forward(Undone(x, y));
    StampsTellAlways(Undone(x, y), key);
    UndoneAttempt(x, y, key);
    UndoneTurn(x, y, key);
    ModelCache.StableLoadIsAtomicIff(HistoryOf(Undone(x, y), key), key, 0);
  }

  /** The rollback went no further, so the disk refuses to load from then on, and every later call
      serves the torn pair from memory. */
  lemma TornPairIsServed(x: ArtifactId, y: ArtifactId, key: Key, later: nat)
    requires x != y && later >= 9
    ensures var h := HistoryOf(Undone(x, y), key);
      var kept := map[key := ModelCache.Kept(x, 7, x, MetaOf(y))];
      && ModelCache.LoadAt(h, key, later) == None
      && ModelCache.Calls(h, key, kept, later, ModelCache.MAX_LOAD_ATTEMPTS)
         == ModelCache.Got(ModelCache.Found(x, MetaOf(y)), kept, later + 2)
  {
    var h := HistoryOf(Undone(x, y), key);
    UndoneDisk(x, y, key, later);
    UndoneDisk(x, y, key, later + 1);
    assert ModelCache.Hits(h, key, map[key := ModelCache.Kept(x, 7, x, MetaOf(y))], later);
  }

  // ----- which histories there are -----

  /** The file actions of one family in a run, as far as step `n`. */
  function ActsBy(states: seq<TrainingProtocol.State>, steps: seq<TrainingProtocol.Step>, t: ModelType, n: nat): seq<FileAction>
    requires n <= |steps| && |states| == |steps| + 1
  {
    if n == 0 then []
    else
      var s, step := states[n - 1], steps[n - 1];
      var before := ActsBy(states, steps, t, n - 1);
      if step.Act? && TrainingProtocol.Enabled(s, step) && s.ops[step.op].family == t
         && Possible(s.files.At(t), s.ops[step.op].phase.todo[0])
      then before + [s.ops[step.op].phase.todo[0]] else before
  }

  lemma {:induction false} ActsGrow(states: seq<TrainingProtocol.State>, steps: seq<TrainingProtocol.Step>, t: ModelType, n: nat, m: nat)
    requires n <= m <= |steps| && |states| == |steps| + 1
    ensures |ActsBy(states, steps, t, n)| <= |ActsBy(states, steps, t, m)|
    ensures ActsBy(states, steps, t, m)[..|ActsBy(states, steps, t, n)|] == ActsBy(states, steps, t, n)
  {
    if n < m { ActsGrow(states, steps, t, n, m - 1); }
  }

  lemma {:induction false} ActsMakeTheFiles(states: seq<TrainingProtocol.State>, steps: seq<TrainingProtocol.Step>, t: ModelType, n: nat)
    requires TrainingProtocol.IsRun(states, steps) && n <= |steps|
    ensures Play(states[0].files.At(t), ActsBy(states, steps, t, n)) == states[n].files.At(t)
  {
    if n > 0 {
      ActsMakeTheFiles(states, steps, t, n - 1);
      assert states[n] == TrainingProtocol.Next(states[n - 1], steps[n - 1]);
      var s, step := states[n - 1], steps[n - 1];
      if step.Act? && s.ops[step.op].family == t {
        PlayAppend(states[0].files.At(t), ActsBy(states, steps, t, n - 1), s.ops[step.op].phase.todo[0]);
      }
    }
  }

  /** The files of one family in any run of the protocol, live reclaims, kills and all, are such a
      history: so stamps tell in every run, and the cache's exact conditions hold there. */
  lemma EveryRunIsACourse(states: seq<TrainingProtocol.State>, steps: seq<TrainingProtocol.Step>, t: ModelType, n: nat)
    requires TrainingProtocol.IsRun(states, steps) && n <= |steps|
    ensures var acts := ActsBy(states, steps, t, |steps|);
      var done := |ActsBy(states, steps, t, n)|;
      done <= |acts| && FilesAfter(states[0].files.At(t), acts, done) == states[n].files.At(t)
    ensures n > 0 ==> |ActsBy(states, steps, t, n - 1)| <= |ActsBy(states, steps, t, n)|
  {
    ActsGrow(states, steps, t, n, |steps|);
    ActsMakeTheFiles(states, steps, t, n);
    if n > 0 { ActsGrow(states, steps, t, n - 1, n); }
  }

  /** The file actions of operations that ran one after the other, each stopped after its own prefix. */
  function ActsOf(base: Files, history: seq<TrainingProtocol.Record>): seq<FileAction> {
    if history == [] then []
    else
      var before, last := ActsOf(base, history[..|history| - 1]), history[|history| - 1];
      before + Begun(last, Play(base, before))
  }

  function Begun(r: TrainingProtocol.Record, f: Files): seq<FileAction> {
    var p := Program(r.kind, r.artifact, f);
    if r.performed <= |p| then p[..r.performed] else p
  }

  lemma {:induction false} ActsOfReplay(base: Files, history: seq<TrainingProtocol.Record>)
    ensures Play(base, ActsOf(base, history)) == TrainingSerial.Replay(base, history)
  {
    if history != [] {
      var before, last := ActsOf(base, history[..|history| - 1]), history[|history| - 1];
      ActsOfReplay(base, history[..|history| - 1]);
      PlayConcat(base, before, Begun(last, Play(base, before)));
    }
  }

  /** Stopped between the two renames that retire the old pair. */
  predicate BetweenRetirements(r: TrainingProtocol.Record, f: Files) {
    r.kind.Training? && Active(f) != Missing && r.performed == 3
  }

  ghost predicate NoneBetweenRetirements(base: Files, history: seq<TrainingProtocol.Record>) {
    forall i :: 0 <= i < |history| ==> !BetweenRetirements(history[i], TrainingSerial.Replay(base, history[..i]))
  }

  lemma BegunRetiresInPairs(r: TrainingProtocol.Record, f: Files)
    ensures RetiresInPairs(f, Begun(r, f))
    ensures !BetweenRetirements(r, f) ==> !EndsInRetirement(Begun(r, f))
  {
    if r.kind.Training? {
      PromotionIs(r.artifact, f);
      if Active(f) != Missing && |Begun(r, f)| > 3 {
        ReplacementTrace(r.artifact, f, 3);
        assert Begun(r, f)[..3] == PromotionActions(r.artifact, true)[..3];
      }
    }
  }

  lemma JoinedAfter(base: Files, before: seq<FileAction>, next: seq<FileAction>, k: nat)
    requires k <= |next|
    ensures FilesAfter(base, before + next, |before| + k) == FilesAfter(Play(base, before), next, k)
  {
    assert (before + next)[..|before| + k] == before + next[..k];
    PlayConcat(base, before, next[..k]);
  }

  lemma JoinedBefore(base: Files, before: seq<FileAction>, next: seq<FileAction>, k: nat)
    requires k <= |before|
    ensures FilesAfter(base, before + next, k) == FilesAfter(base, before, k)
  {
    assert (before + next)[..k] == before[..k];
  }

  ghost predicate EndsInRetirement(acts: seq<FileAction>) {
    acts != [] && acts[|acts| - 1].RetireModel?
  }

  lemma JoinedRetireInPairs(base: Files, before: seq<FileAction>, next: seq<FileAction>)
    requires RetiresInPairs(base, before) && RetiresInPairs(Play(base, before), next) && !EndsInRetirement(before)
    ensures RetiresInPairs(base, before + next)
  {
    var acts := before + next;
    forall i: nat | i + 1 < |acts| ensures PairAt(base, acts, i) {
      if i < |before| { PairBefore(base, before, next, i); } else { PairAfter(base, before, next, i - |before|); }
    }
  }

  lemma PairBefore(base: Files, before: seq<FileAction>, next: seq<FileAction>, i: nat)
    requires RetiresInPairs(base, before) && !EndsInRetirement(before) && i < |before| && i + 1 < |before + next|
    ensures PairAt(base, before + next, i)
  {
    assert (before + next)[i] == before[i];
    if i + 1 < |before| {
      assert PairAt(base, before, i) && (before + next)[i + 1] == before[i + 1];
      JoinedBefore(base, before, next, i + 1);
    }
  }

  lemma PairAfter(base: Files, before: seq<FileAction>, next: seq<FileAction>, k: nat)
    requires RetiresInPairs(Play(base, before), next) && k + 1 < |next|
    ensures PairAt(base, before + next, |before| + k)
  {
    assert PairAt(Play(base, before), next, k);
    assert (before + next)[|before| + k] == next[k] && (before + next)[|before| + k + 1] == next[k + 1];
    JoinedAfter(base, before, next, k + 1);
  }

  lemma PrefixBetween(base: Files, history: seq<TrainingProtocol.Record>)
    requires history != [] && NoneBetweenRetirements(base, history)
    ensures NoneBetweenRetirements(base, history[..|history| - 1])
    ensures !BetweenRetirements(history[|history| - 1], TrainingSerial.Replay(base, history[..|history| - 1]))
  {
    var before := history[..|history| - 1];
    assert forall i :: 0 <= i < |before| ==> before[i] == history[i] && before[..i] == history[..i];
  }

  lemma {:induction false} ProgramsEndWell(base: Files, history: seq<TrainingProtocol.Record>)
    requires NoneBetweenRetirements(base, history)
    ensures !EndsInRetirement(ActsOf(base, history))
  {
    if history != [] {
      var before, last := history[..|history| - 1], history[|history| - 1];
      PrefixBetween(base, history);
      ProgramsEndWell(base, before);
      ActsOfReplay(base, before);
      BegunRetiresInPairs(last, Play(base, ActsOf(base, before)));
    }
  }

  /** Promotions and rollbacks one after the other retire in pairs, wherever they stop, unless one that
      stopped between its two retiring renames is followed by another. */
  lemma {:induction false} ProgramsRetireInPairs(base: Files, history: seq<TrainingProtocol.Record>)
    requires history != [] ==> NoneBetweenRetirements(base, history[..|history| - 1])
    ensures RetiresInPairs(base, ActsOf(base, history))
  {
    if history != [] {
      var before, last := history[..|history| - 1], history[|history| - 1];
      if before != [] { PrefixBetween(base, before); }
      ProgramsRetireInPairs(base, before);
      ProgramsEndWell(base, before);
      BegunRetiresInPairs(last, Play(base, ActsOf(base, before)));
      JoinedRetireInPairs(base, ActsOf(base, before), Begun(last, Play(base, ActsOf(base, before))));
    }
  }
}
