/**
 The candidate -> active -> previous artifact files of one model family
 (app/ml/artifact_lifecycle.py, app/ml/model_store.py).

 A promotion and a rollback are short programs of single file actions (`os.replace`, a
 metadata write, an `unlink`).  Any of them may be the last one that happens: the process can
 be killed, or the next call can raise.  A model file is identified by its checksum; a
 metadata file by the checksum it records.
 */
module Artifacts {
  import opened Basics

  type ArtifactId = nat

  datatype Files = Files(
    activeModel: Option<ArtifactId>, activeMeta: Option<ArtifactId>,
    previousModel: Option<ArtifactId>, previousMeta: Option<ArtifactId>,
    candidateModel: Option<ArtifactId>, candidateMeta: Option<ArtifactId>,
    stagedMeta: Option<ArtifactId>)

  /** What `load_validated` says of a (model, metadata) pair. */
  datatype Status = Missing | Corrupted | Ready(id: ArtifactId)

  function PairStatus(model: Option<ArtifactId>, meta: Option<ArtifactId>): Status {
    if model.None? || meta.None? then Missing
    else if model == meta then Ready(model.value)
    else Corrupted
  }

  function Active(f: Files): Status { PairStatus(f.activeModel, f.activeMeta) }
  function Previous(f: Files): Status { PairStatus(f.previousModel, f.previousMeta) }
  function Candidate(f: Files): Status { PairStatus(f.candidateModel, f.candidateMeta) }

  datatype FileAction =
    | SaveModel(id: ArtifactId)
    | SaveMeta(id: ArtifactId)
    | RetireModel
    | RetireMeta
    | StageMeta(id: ArtifactId)
    | ActivateCandidate
    | ActivatePrevious
    | ActivateStaged
    | DropCandidateMeta
    | DropPreviousMeta

  /** `os.replace` raises when its source is gone; every other action always succeeds. */
  predicate Possible(f: Files, a: FileAction) {
    match a
    case RetireModel => f.activeModel.Some?
    case RetireMeta => f.activeMeta.Some?
    case ActivateCandidate => f.candidateModel.Some?
    case ActivatePrevious => f.previousModel.Some?
    case ActivateStaged => f.stagedMeta.Some?
    case _ => true
  }

  function Apply(f: Files, a: FileAction): Files {
    if !Possible(f, a) then f else
    match a
    case SaveModel(id) => f.(candidateModel := Some(id))
    case SaveMeta(id) => f.(candidateMeta := Some(id))
    case RetireModel => f.(previousModel := f.activeModel, activeModel := None)
    case RetireMeta => f.(previousMeta := f.activeMeta, activeMeta := None)
    case StageMeta(id) => f.(stagedMeta := Some(id))
    case ActivateCandidate => f.(activeModel := f.candidateModel, candidateModel := None)
    case ActivatePrevious => f.(activeModel := f.previousModel, previousModel := None)
    case ActivateStaged => f.(activeMeta := f.stagedMeta, stagedMeta := None)
    case DropCandidateMeta => f.(candidateMeta := None)
    case DropPreviousMeta => f.(previousMeta := None)
  }

  function Play(f: Files, acts: seq<FileAction>): Files {
    if acts == [] then f else Apply(Play(f, acts[..|acts| - 1]), acts[|acts| - 1])
  }

  /** A rename fails, and then changes nothing, exactly if its source is gone; writes and removals do
      not fail. */
  lemma RenamesFailIff(f: Files, a: FileAction)
    ensures !Possible(f, a) <==>
      || (a.RetireModel? && f.activeModel.None?) || (a.RetireMeta? && f.activeMeta.None?)
      || (a.ActivateCandidate? && f.candidateModel.None?) || (a.ActivatePrevious? && f.previousModel.None?)
      || (a.ActivateStaged? && f.stagedMeta.None?)
    ensures !Possible(f, a) ==> Apply(f, a) == f
  {
  }

  /** What is ready to be served: two files of one checksum; what is missing lacks one of them. */
  lemma StatusTells(model: Option<ArtifactId>, meta: Option<ArtifactId>, id: ArtifactId)
    ensures PairStatus(model, meta) == Ready(id) <==> model == Some(id) && meta == Some(id)
    ensures PairStatus(model, meta) == Missing <==> model.None? || meta.None?
    ensures PairStatus(model, meta) == Corrupted <==> model.Some? && meta.Some? && model != meta
  {
  }

  function SaveProgram(c: ArtifactId): seq<FileAction> {
    [SaveModel(c), SaveMeta(c)]
  }

  /** What `promote` does once the candidate has been validated as `c`. */
  function PromoteProgram(f: Files, c: ArtifactId): seq<FileAction> {
    if f.activeModel.Some? && f.activeMeta.Some? then [RetireModel, RetireMeta] + ActivateProgram(c)
    else ActivateProgram(c)
  }

  function ActivateProgram(c: ArtifactId): seq<FileAction> {
    [StageMeta(c), ActivateCandidate, ActivateStaged, DropCandidateMeta]
  }

  /** What `rollback` does once the previous artifact has been validated as `p`. */
  function RollbackProgram(p: ArtifactId): seq<FileAction> {
    [StageMeta(p), ActivatePrevious, ActivateStaged, DropPreviousMeta]
  }

  datatype Kind = Training | Rollback

  /** The whole program of an operation that finds the files as `f` and runs alone. */
  function Program(kind: Kind, c: ArtifactId, f: Files): seq<FileAction> {
    match kind
    case Training => SaveProgram(c) + PromoteProgram(f, c)
    case Rollback => if Previous(f).Ready? then RollbackProgram(Previous(f).id) else []
  }

  /** The files after the first `n` actions of that program (all of them if it is shorter). */
  function Stopped(kind: Kind, c: ArtifactId, f: Files, n: nat): Files {
    var p := Program(kind, c, f);
    Play(f, if n <= |p| then p[..n] else p)
  }

  function Finished(kind: Kind, c: ArtifactId, f: Files): Files {
    Play(f, Program(kind, c, f))
  }

  // ----- one operation, wherever it stops -----

  lemma StoppedAtTheEnd(kind: Kind, c: ArtifactId, f: Files, n: nat)
    requires n >= |Program(kind, c, f)|
    ensures Stopped(kind, c, f, n) == Finished(kind, c, f)
  {
    var p := Program(kind, c, f);
    assert p[..|p|] == p;
  }

  lemma PlayStep(f: Files, acts: seq<FileAction>, n: nat)
    requires n < |acts|
    ensures Play(f, acts[..n + 1]) == Apply(Play(f, acts[..n]), acts[n])
  {
    assert acts[..n + 1][..n] == acts[..n];
  }

  lemma PlayAppend(f: Files, acts: seq<FileAction>, a: FileAction)
    ensures Play(f, acts + [a]) == Apply(Play(f, acts), a)
  {
    assert (acts + [a])[..|acts|] == acts;
  }

  /** The files after each action of `acts`, one equation per action. */
  lemma Unfold(f: Files, acts: seq<FileAction>)
    ensures forall n: nat {:trigger Play(f, acts[..n])} | 0 < n <= |acts| ::
      Play(f, acts[..n]) == Apply(Play(f, acts[..n - 1]), acts[n - 1])
    ensures acts[..|acts|] == acts
  {
    forall n: nat {:trigger Play(f, acts[..n])} | 0 < n <= |acts|
      ensures Play(f, acts[..n]) == Apply(Play(f, acts[..n - 1]), acts[n - 1])
    {
      PlayStep(f, acts, n - 1);
    }
  }

  lemma Prefixes(first: seq<FileAction>, second: seq<FileAction>, n: nat)
    requires n <= |first| + |second|
    ensures (first + second)[..n] == if n <= |first| then first[..n] else first + second[..n - |first|]
  {
  }

  lemma {:induction false} PlayConcat(f: Files, first: seq<FileAction>, second: seq<FileAction>)
    ensures Play(f, first + second) == Play(Play(f, first), second)
  {
    if second == [] {
      assert first + second == first;
    } else {
      var front := second[..|second| - 1];
      PlayConcat(f, first, front);
      assert first + second == (first + front) + [second[|second| - 1]];
      PlayAppend(f, first + front, second[|second| - 1]);
    }
  }

  function PromotionActions(c: ArtifactId, overActive: bool): seq<FileAction> {
    if overActive then
      [SaveModel(c), SaveMeta(c), RetireModel, RetireMeta, StageMeta(c), ActivateCandidate, ActivateStaged, DropCandidateMeta]
    else
      [SaveModel(c), SaveMeta(c), StageMeta(c), ActivateCandidate, ActivateStaged, DropCandidateMeta]
  }

  lemma PromotionIs(c: ArtifactId, f: Files)
    ensures Program(Training, c, f) == PromotionActions(c, Active(f) != Missing)
  {
  }

  /** Every file after each action of a promotion that replaces an active pair. */
  lemma {:induction false} ReplacementTrace(c: ArtifactId, f: Files, n: nat)
    requires Active(f) != Missing && n <= 8
    ensures Play(f, PromotionActions(c, true)[..n]) == Files(
      if n < 3 then f.activeModel else if n < 6 then None else Some(c),
      if n < 4 then f.activeMeta else if n < 7 then None else Some(c),
      if n < 3 then f.previousModel else f.activeModel,
      if n < 4 then f.previousMeta else f.activeMeta,
      if n < 1 then f.candidateModel else if n < 6 then Some(c) else None,
      if n < 2 then f.candidateMeta else if n < 8 then Some(c) else None,
      if n < 5 then f.stagedMeta else if n < 7 then Some(c) else None)
  {
    if n > 0 {
      ReplacementTrace(c, f, n - 1);
      PlayStep(f, PromotionActions(c, true), n - 1);
    }
  }

  /** Every file after each action of a promotion that finds no complete active pair. */
  lemma {:induction false} FirstTrace(c: ArtifactId, f: Files, n: nat)
    requires n <= 6
    ensures Play(f, PromotionActions(c, false)[..n]) == Files(
      if n < 4 then f.activeModel else Some(c),
      if n < 5 then f.activeMeta else Some(c),
      f.previousModel,
      f.previousMeta,
      if n < 1 then f.candidateModel else if n < 4 then Some(c) else None,
      if n < 2 then f.candidateMeta else if n < 6 then Some(c) else None,
      if n < 3 then f.stagedMeta else if n < 5 then Some(c) else None)
  {
    if n > 0 {
      FirstTrace(c, f, n - 1);
      PlayStep(f, PromotionActions(c, false), n - 1);
    }
  }

  /** Every file after each action of a rollback. */
  lemma {:induction false} RollbackTrace(f: Files, n: nat)
    requires Previous(f).Ready? && n <= 4
    ensures Play(f, RollbackProgram(Previous(f).id)[..n]) == Files(
      if n < 2 then f.activeModel else f.previousModel,
      if n < 3 then f.activeMeta else Some(Previous(f).id),
      if n < 2 then f.previousModel else None,
      if n < 4 then f.previousMeta else None,
      f.candidateModel,
      f.candidateMeta,
      if n < 1 then f.stagedMeta else if n < 3 then Some(Previous(f).id) else None)
  {
    if n > 0 {
      RollbackTrace(f, n - 1);
      PlayStep(f, RollbackProgram(Previous(f).id), n - 1);
    }
  }

  lemma WholePrefix(acts: seq<FileAction>)
    ensures acts[..|acts|] == acts
  {
  }

  /** The files of a promotion wherever it stops. */
  lemma PromotionTrace(c: ArtifactId, f: Files, n: nat)
    ensures Active(f) != Missing ==>
      Stopped(Training, c, f, n) == Play(f, PromotionActions(c, true)[..if n <= 8 then n else 8])
    ensures Active(f) == Missing ==>
      Stopped(Training, c, f, n) == Play(f, PromotionActions(c, false)[..if n <= 6 then n else 6])
  {
    PromotionIs(c, f);
    WholePrefix(PromotionActions(c, Active(f) != Missing));
  }

  /** A completed promotion serves the candidate, however torn the files were before it, and
      retires the old active pair exactly when both of its files were there. */
  lemma PromotionFinished(c: ArtifactId, f: Files)
    ensures var g := Finished(Training, c, f);
      && Active(g) == Ready(c)
      && Previous(g) == (if Active(f) != Missing then Active(f) else Previous(f))
      && Candidate(g) == Missing && g.stagedMeta == None
  {
    PromotionIs(c, f);
    StoppedAtTheEnd(Training, c, f, 8);
    PromotionTrace(c, f, 8);
    if Active(f) != Missing { ReplacementTrace(c, f, 8); } else { FirstTrace(c, f, 6); }
  }

  /** A completed rollback serves what was previous and leaves nothing to roll back to. */
  lemma RollbackFinished(c: ArtifactId, f: Files)
    ensures var g := Finished(Rollback, c, f);
      if Previous(f).Ready? then Active(g) == Previous(f) && Previous(g) == Missing else g == f
  {
    if Previous(f).Ready? {
      RollbackTrace(f, 4);
      WholePrefix(RollbackProgram(Previous(f).id));
    }
  }

  /** A promotion cut short serves the old artifact, the new one, or nothing: the table of every
      stopping point.  Only the ready-to-serve `c` can take over, never a mixture. */
  lemma PromotionStopped(c: ArtifactId, f: Files, n: nat)
    ensures var g := Stopped(Training, c, f, n);
      if Active(f) != Missing then
        Active(g) == (if n < 3 then Active(f) else if n < 7 then Missing else Ready(c))
      else
        Active(g) == (if n < 4 then Missing else if n == 4 then PairStatus(Some(c), f.activeMeta) else Ready(c))
  {
    PromotionTrace(c, f, n);
    if Active(f) != Missing {
      ReplacementTrace(c, f, if n <= 8 then n else 8);
    } else {
      FirstTrace(c, f, if n <= 6 then n else 6);
    }
  }

  /** Where a promotion can stop with the artifact that was active before it still active. */
  predicate LeavesActive(c: ArtifactId, f: Files, n: nat) {
    if Active(f) != Missing then n < 3 || (n >= 7 && Active(f) == Ready(c))
    else n < 4 || (n == 4 && f.activeMeta.None?)
  }

  /** Where it can stop with its own artifact live. */
  predicate GoesLive(c: ArtifactId, f: Files, n: nat) {
    if Active(f) != Missing then n >= 7 || (n < 3 && Active(f) == Ready(c))
    else n > 4 || (n == 4 && f.activeMeta == Some(c))
  }

  lemma StoppedPromotionServes(c: ArtifactId, f: Files, n: nat)
    ensures var g := Stopped(Training, c, f, n);
      && (Active(g) == Active(f) <==> LeavesActive(c, f, n))
      && (Active(g) == Ready(c) <==> GoesLive(c, f, n))
  {
    PromotionStopped(c, f, n);
  }

  /** The artifact that was active is still servable or still a rollback target wherever the
      promotion stops, except between the two renames that retire it. */
  lemma RetiredArtifactSurvives(c: ArtifactId, f: Files, n: nat)
    requires Active(f).Ready?
    ensures var g := Stopped(Training, c, f, n);
      Active(g) == Active(f) || Previous(g) == Active(f) || Active(g) == Ready(c)
      <==> n != 3 || f.previousMeta == f.activeMeta
  {
    PromotionTrace(c, f, n);
    ReplacementTrace(c, f, if n <= 8 then n else 8);
  }

  /** A rollback cut short: the one unservable point is right after the model file moved, where
      the checksum recorded in the old metadata refuses the restored model (unless it is the same
      artifact), and from there on the rollback target is spent. */
  lemma RollbackStopped(c: ArtifactId, f: Files, n: nat)
    requires Previous(f).Ready?
    ensures var g := Stopped(Rollback, c, f, n);
      && Active(g) == (if n < 2 then Active(f)
                       else if n == 2 then PairStatus(f.previousModel, f.activeMeta) else Previous(f))
      && Previous(g) == (if n < 2 then Previous(f) else Missing)
  {
    WholePrefix(RollbackProgram(Previous(f).id));
    RollbackTrace(f, if n <= 4 then n else 4);
  }

  /** Undo: promoting and rolling back restores the active artifact if and only if one was
      readable before (ready to serve); with nothing active, the rollback resurrects an older
      `previous` instead, or has no target at all. */
  lemma RollbackUndoesPromotion(c: ArtifactId, f: Files)
    ensures var g := Finished(Training, c, f);
      var h := Finished(Rollback, c, g);
      && (Previous(g).Ready? ==> (Active(h) == Active(f) <==> Active(f).Ready?))
      && (Active(f).Ready? ==> Previous(g) == Active(f) && Active(h) == Active(f))
      && (!Previous(g).Ready? ==> Active(h) == Ready(c))
  {
    PromotionFinished(c, f);
    RollbackFinished(c, Finished(Training, c, f));
  }

  // ----- any number of completed operations -----

  datatype Operation = Operation(kind: Kind, artifact: ArtifactId)

  const NO_FILES := Files(None, None, None, None, None, None, None)

  function AfterAll(ops: seq<Operation>): Files {
    if ops == [] then NO_FILES
    else var last := ops[|ops| - 1]; Finished(last.kind, last.artifact, AfterAll(ops[..|ops| - 1]))
  }

  lemma AfterAllAppend(ops: seq<Operation>, op: Operation)
    ensures AfterAll(ops + [op]) == Finished(op.kind, op.artifact, AfterAll(ops))
  {
    assert (ops + [op])[..|ops|] == ops;
  }

  function Promotions(ops: seq<Operation>): nat {
    if ops == [] then 0
    else Promotions(ops[..|ops| - 1]) + if ops[|ops| - 1].kind.Training? then 1 else 0
  }

  /** There is something to serve once anything was promoted; there is something to roll back to
      exactly when the last operation was a promotion and not the first one. */
  lemma {:induction false} RollbackTarget(ops: seq<Operation>)
    ensures Active(AfterAll(ops)).Ready? <==> Promotions(ops) > 0
    ensures Promotions(ops) == 0 ==> Active(AfterAll(ops)) == Missing
    ensures Previous(AfterAll(ops)).Ready? <==>
      Promotions(ops) > 1 && ops[|ops| - 1].kind.Training?
    ensures !Previous(AfterAll(ops)).Ready? ==> Previous(AfterAll(ops)) == Missing
  {
    if ops != [] {
      var before, last := ops[..|ops| - 1], ops[|ops| - 1];
      RollbackTarget(before);
      PromotionFinished(last.artifact, AfterAll(before));
      RollbackFinished(last.artifact, AfterAll(before));
    }
  }

  // ----- the two operations as they run -----

  datatype Outcome = NotFound | ValidationFailed | Interrupted | Completed(id: ArtifactId)

  /** The artifact directory.  `budget` is the number of file actions that happen before the
      process is killed or the next action raises; `smoke` is the result of the inference
      smoke test. */
  class Directory {
    var files: Files

    constructor ()
      ensures files == NO_FILES
    {
      files := NO_FILES;
    }

    method Save(c: ArtifactId)
      modifies this
      ensures files == Play(old(files), SaveProgram(c))
    {
      Unfold(files, SaveProgram(c));
      files := files.(candidateModel := Some(c));
      files := files.(candidateMeta := Some(c));
    }

    method Promote(smoke: bool, budget: nat) returns (r: Outcome)
      modifies this
      ensures old(files.candidateModel.None? || files.candidateMeta.None?) <==> r == NotFound
      ensures r == ValidationFailed <==> old(files.candidateModel.Some? && files.candidateMeta.Some?)
                                         && !(old(files.candidateModel == files.candidateMeta) && smoke)
      ensures old(Candidate(files)).Missing? ==> r == NotFound && files == old(files)
      ensures !old(Candidate(files)).Missing? && !(old(Candidate(files)).Ready? && smoke) ==>
        r == ValidationFailed && files == old(files)
      ensures old(Candidate(files)).Ready? && smoke ==>
        var c := old(Candidate(files)).id;
        var p := PromoteProgram(old(files), c);
        if budget < |p| then r == Interrupted && files == Play(old(files), p[..budget])
        else r == Completed(c) && files == Play(old(files), p)
    {
      if Candidate(files).Missing? { return NotFound; }
      if Candidate(files).Corrupted? || !smoke { return ValidationFailed; }
      var c := Candidate(files).id;
      ghost var before := files;
      var left := budget;
      if files.activeModel.Some? && files.activeMeta.Some? {
        Unfold(before, [RetireModel, RetireMeta]);
        if budget < 6 { Prefixes([RetireModel, RetireMeta], ActivateProgram(c), budget); }
        if left == 0 { return Interrupted; }
        files := files.(previousModel := files.activeModel, activeModel := None);
        if left == 1 { return Interrupted; }
        files := files.(previousMeta := files.activeMeta, activeMeta := None);
        left := left - 2;
        PlayConcat(before, [RetireModel, RetireMeta], ActivateProgram(c));
        if left < 4 { PlayConcat(before, [RetireModel, RetireMeta], ActivateProgram(c)[..left]); }
      }
      r := Activate(c, left);
    }

    /** The second half of a promotion. */
    method Activate(c: ArtifactId, left: nat) returns (r: Outcome)
      requires files.candidateModel == Some(c)
      modifies this
      ensures if left < 4 then r == Interrupted && files == Play(old(files), ActivateProgram(c)[..left])
              else r == Completed(c) && files == Play(old(files), ActivateProgram(c))
    {
      Unfold(files, ActivateProgram(c));
      if left == 0 { return Interrupted; }
      files := files.(stagedMeta := Some(c));
      if left == 1 { return Interrupted; }
      files := files.(activeModel := files.candidateModel, candidateModel := None);
      if left == 2 { return Interrupted; }
      files := files.(activeMeta := files.stagedMeta, stagedMeta := None);
      if left == 3 { return Interrupted; }
      files := files.(candidateMeta := None);
      return Completed(c);
    }

    method Rollback(smoke: bool, budget: nat) returns (r: Outcome)
      modifies this
      ensures old(files.previousModel.None? || files.previousMeta.None?) <==> r == NotFound
      ensures r == ValidationFailed <==> old(files.previousModel.Some? && files.previousMeta.Some?)
                                         && !(old(files.previousModel == files.previousMeta) && smoke)
      ensures old(Previous(files)).Missing? ==> r == NotFound && files == old(files)
      ensures !old(Previous(files)).Missing? && !(old(Previous(files)).Ready? && smoke) ==>
        r == ValidationFailed && files == old(files)
      ensures old(Previous(files)).Ready? && smoke ==>
        var p := old(Previous(files)).id;
        if budget < 4 then r == Interrupted && files == Play(old(files), RollbackProgram(p)[..budget])
        else r == Completed(p) && files == Play(old(files), RollbackProgram(p))
    {
      if Previous(files).Missing? { return NotFound; }
      if Previous(files).Corrupted? || !smoke { return ValidationFailed; }
      var p := Previous(files).id;
      Unfold(files, RollbackProgram(p));
      if budget == 0 { return Interrupted; }
      files := files.(stagedMeta := Some(p));
      if budget == 1 { return Interrupted; }
      files := files.(activeModel := files.previousModel, previousModel := None);
      if budget == 2 { return Interrupted; }
      files := files.(activeMeta := files.stagedMeta, stagedMeta := None);
      if budget == 3 { return Interrupted; }
      files := files.(previousMeta := None);
      return Completed(p);
    }
  }
}
