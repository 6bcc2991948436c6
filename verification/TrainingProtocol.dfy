/**
 Training requests, background runs and rollback requests as one state machine
 (app/api/training_routes.py over app/services/training_lock.py, app/services/job_store.py and
 app/ml/artifact_lifecycle.py).

 Every statement on a lock row, every change of a job row and every file action is a step of its
 own, any operation can raise or be killed between two steps, and any number of operations of both
 model families interleave.
 An operation id stands for the job's uuid; `entry` and `performed` of an operation, and
 `history` and `validated` of a state, record what happened and decide nothing.
 */
module TrainingProtocol {
  import opened Basics
  import opened Artifacts

  /** A lock row older than this is treated as abandoned. */
  const STALE_SECONDS: nat := 1800

  type OpId = nat

  datatype Lock = Lock(owner: OpId, at: nat)

  datatype JobStatus = PENDING | RUNNING | SUCCEEDED | FAILED | CANCELLED

  datatype Phase =
    | Arriving                                          // the job row exists; the lock was not looked at
    | Looked(seen: Option<Lock>, stale: bool)           // `acquire` has read the lock row
    | Refused                                           // 409; the job is still to be marked FAILED
    | Entered                                           // the lock row is ours
    | Filing(todo: seq<FileAction>, validated: bool)    // saving the candidate, then swapping files
    | Filed(ok: bool)                                   // `train` returned or raised; the job is still RUNNING
    | Leaving                                           // only the release is left
    | Releasing(mine: bool)                             // `release` has read the lock row

  datatype Op = Op(kind: Kind, family: ModelType, artifact: ArtifactId, phase: Phase,
                   at: nat, entry: Files, performed: nat)

  /** What one operation that has left did to its family's files. */
  datatype Record = Record(kind: Kind, artifact: ArtifactId, performed: nat)

  datatype State = State(
    now: nat, nextId: OpId,
    ops: map<OpId, Op>,
    jobs: map<OpId, JobStatus>,
    locks: PerType<Option<Lock>>,
    files: PerType<Files>,
    history: PerType<seq<Record>>,
    validated: set<ArtifactId>)

  datatype Step =
    | Tick(seconds: nat)
    | Arrive(kind: Kind, family: ModelType, artifact: ArtifactId)
    | Look(op: OpId)
    | Claim(op: OpId)
    | TurnAway(op: OpId)
    | Begin(op: OpId)
    | Validate(op: OpId, smoke: bool)
    | Act(op: OpId)
    | Mark(op: OpId)
    | Raise(op: OpId)
    | ReadLock(op: OpId)
    | Release(op: OpId)
    | Vanish(op: OpId)       // the process is killed, or the release (or a refusal's write) raises

  predicate Critical(op: Op) {
    op.phase.Entered? || op.phase.Filing? || op.phase.Filed? || op.phase.Leaving? || op.phase.Releasing?
  }

  /** `_ALLOWED_TRANSITIONS` of the job store. */
  predicate Allowed(from: JobStatus, to: JobStatus) {
    match from
    case PENDING => to in {RUNNING, CANCELLED, FAILED}
    case RUNNING => to in {SUCCEEDED, FAILED, CANCELLED}
    case _ => false
  }

  predicate CanMove(s: State, o: OpId, to: JobStatus) {
    o in s.jobs && Allowed(s.jobs[o], to)
  }

  predicate Enabled(s: State, step: Step) {
    match step
    case Tick(_) => true
    case Arrive(_, _, _) => true
    case Look(o) => o in s.ops && s.ops[o].phase.Arriving?
    case Claim(o) => o in s.ops && s.ops[o].phase.Looked?
    case TurnAway(o) => o in s.ops && s.ops[o].phase.Refused?
                        && (s.ops[o].kind.Training? ==> CanMove(s, o, FAILED))
    case Begin(o) => o in s.ops && s.ops[o].kind.Training? && s.ops[o].phase.Entered? && CanMove(s, o, RUNNING)
    case Validate(o, _) =>
      o in s.ops && (if s.ops[o].kind.Training? then s.ops[o].phase == Filing([], false) else s.ops[o].phase.Entered?)
    case Act(o) => o in s.ops && s.ops[o].phase.Filing? && s.ops[o].phase.todo != []
    case Mark(o) => o in s.ops && s.ops[o].kind.Training? && s.ops[o].phase.Filed?
                    && CanMove(s, o, if s.ops[o].phase.ok then SUCCEEDED else FAILED)
    case Raise(o) => o in s.ops && Critical(s.ops[o]) && !s.ops[o].phase.Leaving? && !s.ops[o].phase.Releasing?
    case ReadLock(o) => o in s.ops && s.ops[o].phase.Leaving?
    case Release(o) => o in s.ops && s.ops[o].phase.Releasing?
    case Vanish(o) => o in s.ops
  }

  function Put(s: State, o: OpId, op: Op): State {
    s.(ops := s.ops[o := op])
  }

  /** The operation is gone; if it held the lock, what it did to the files is on record. */
  function Drop(s: State, o: OpId): State
    requires o in s.ops
  {
    var op := s.ops[o];
    var gone := s.(ops := s.ops - {o});
    if Critical(op) then
      gone.(history := s.history.With(op.family,
              s.history.At(op.family) + [Record(op.kind, op.artifact, op.performed)]))
    else gone
  }

  /** `acquire`, second half: insert the row, or compare-and-swap the stale one that was read. */
  predicate Acquires(s: State, o: OpId)
    requires o in s.ops && s.ops[o].phase.Looked?
  {
    var op := s.ops[o];
    match op.phase.seen
    case None => s.locks.At(op.family).None?
    case Some(_) => op.phase.stale && s.locks.At(op.family) == op.phase.seen
  }

  /** What an operation does once its file work is over, normally or not. */
  function AfterFiling(op: Op, ok: bool): Phase {
    if op.kind.Training? then Filed(ok) else Leaving
  }

  function DoArrive(s: State, kind: Kind, family: ModelType, artifact: ArtifactId): State {
    var op := Op(kind, family, artifact, Arriving, 0, NO_FILES, 0);
    s.(nextId := s.nextId + 1, ops := s.ops[s.nextId := op],
       jobs := if kind.Training? then s.jobs[s.nextId := PENDING] else s.jobs)
  }

  function DoLook(s: State, o: OpId): State
    requires o in s.ops
  {
    var lock := s.locks.At(s.ops[o].family);
    Put(s, o, s.ops[o].(phase := Looked(lock, lock.Some? && s.now > lock.value.at + STALE_SECONDS)))
  }

  function DoClaim(s: State, o: OpId): State
    requires o in s.ops && s.ops[o].phase.Looked?
  {
    var op := s.ops[o];
    if Acquires(s, o) then
      Put(s.(locks := s.locks.With(op.family, Some(Lock(o, s.now)))), o,
          op.(phase := Entered, at := s.now, entry := s.files.At(op.family), performed := 0))
    else Put(s, o, op.(phase := Refused))
  }

  function DoValidate(s: State, o: OpId, smoke: bool): State
    requires o in s.ops
  {
    var op := s.ops[o];
    var f := s.files.At(op.family);
    var found := if op.kind.Training? then Candidate(f) else Previous(f);
    if found.Ready? && smoke then
      var todo := if op.kind.Training? then PromoteProgram(f, found.id) else RollbackProgram(found.id);
      Put(s.(validated := s.validated + {found.id}), o, op.(phase := Filing(todo, true)))
    else Put(s, o, op.(phase := AfterFiling(op, false)))
  }

  function DoAct(s: State, o: OpId): State
    requires o in s.ops && s.ops[o].phase.Filing? && s.ops[o].phase.todo != []
  {
    var op := s.ops[o];
    var f := s.files.At(op.family);
    var a, rest := op.phase.todo[0], op.phase.todo[1..];
    if Possible(f, a) then
      Put(s.(files := s.files.With(op.family, Apply(f, a))), o,
          op.(performed := op.performed + 1,
              phase := if rest == [] && op.phase.validated then AfterFiling(op, true)
                       else Filing(rest, op.phase.validated)))
    else Put(s, o, op.(phase := AfterFiling(op, false)))
  }

  function DoRaise(s: State, o: OpId): State
    requires o in s.ops
  {
    var op := s.ops[o];
    Put(s, o, op.(phase := if op.phase.Filing? then AfterFiling(op, false)
                           else if op.phase == Filed(true) then Filed(false) else Leaving))
  }

  /** `release`, first half. */
  function DoReadLock(s: State, o: OpId): State
    requires o in s.ops
  {
    var lock := s.locks.At(s.ops[o].family);
    Put(s, o, s.ops[o].(phase := Releasing(lock.Some? && lock.value.owner == o)))
  }

  /** `release`, second half: the row is deleted by its primary key, the model type, whoever owns it
      by now. */
  function DoRelease(s: State, o: OpId): State
    requires o in s.ops && s.ops[o].phase.Releasing?
  {
    Drop(if s.ops[o].phase.mine then s.(locks := s.locks.With(s.ops[o].family, None)) else s, o)
  }

  function Next(s: State, step: Step): State
    requires Enabled(s, step)
  {
    match step
    case Tick(seconds) => s.(now := s.now + seconds)
    case Arrive(kind, family, artifact) => DoArrive(s, kind, family, artifact)
    case Look(o) => DoLook(s, o)
    case Claim(o) => DoClaim(s, o)
    case TurnAway(o) =>
      Drop(if s.ops[o].kind.Training? then s.(jobs := s.jobs[o := FAILED]) else s, o)
    case Begin(o) =>
      Put(s.(jobs := s.jobs[o := RUNNING]), o,
          s.ops[o].(phase := Filing(SaveProgram(s.ops[o].artifact), false)))
    case Validate(o, smoke) => DoValidate(s, o, smoke)
    case Act(o) => DoAct(s, o)
    case Mark(o) =>
      Put(s.(jobs := s.jobs[o := if s.ops[o].phase.ok then SUCCEEDED else FAILED]), o,
          s.ops[o].(phase := Leaving))
    case Raise(o) => DoRaise(s, o)
    case ReadLock(o) => DoReadLock(s, o)
    case Release(o) => DoRelease(s, o)
    case Vanish(o) => Drop(s, o)
  }

  /** The artifacts that the files of one family name in a metadata file other than a candidate's. */
  function Recorded(f: Files): set<ArtifactId> {
    (if f.activeMeta.Some? then {f.activeMeta.value} else {})
    + (if f.previousMeta.Some? then {f.previousMeta.value} else {})
    + (if f.stagedMeta.Some? then {f.stagedMeta.value} else {})
  }

  // ----- runs -----

  /** No operation is in flight; a crashed process may have left lock rows and files behind. */
  ghost predicate Initial(s: State) {
    && s.ops == map[]
    && (forall o | o in s.jobs :: o < s.nextId)
    && (forall t: ModelType :: s.locks.At(t).Some? ==> s.locks.At(t).value.owner < s.nextId)
    && (forall t: ModelType :: s.history.At(t) == [])
    && (forall t: ModelType :: Recorded(s.files.At(t)) <= s.validated)
  }

  ghost predicate IsRun(states: seq<State>, steps: seq<Step>) {
    && |states| == |steps| + 1
    && Initial(states[0])
    && forall i | 0 <= i < |steps| :: Enabled(states[i], steps[i]) && states[i + 1] == Next(states[i], steps[i])
  }

  lemma {:induction false} FreshIds(states: seq<State>, steps: seq<Step>, n: nat)
    requires IsRun(states, steps) && n < |states|
    ensures forall o | o in states[n].ops :: o < states[n].nextId
    ensures forall o | o in states[n].jobs :: o < states[n].nextId
  {
    if n > 0 {
      FreshIds(states, steps, n - 1);
      assert states[n] == Next(states[n - 1], steps[n - 1]);
    }
  }

  // ----- mutual exclusion -----

  /** Every operation inside its critical section still owns its family's lock row. */
  ghost predicate Held(s: State) {
    forall o | o in s.ops && Critical(s.ops[o]) :: s.locks.At(s.ops[o].family) == Some(Lock(o, s.ops[o].at))
  }

  ghost predicate Exclusive(s: State) {
    forall a, b | a in s.ops && b in s.ops && Critical(s.ops[a]) && Critical(s.ops[b])
                  && s.ops[a].family == s.ops[b].family :: a == b
  }

  /** A compare-and-swap that takes a stale row from an operation that is still working. */
  ghost predicate LiveReclaim(s: State, step: Step) {
    && step.Claim? && Enabled(s, step) && Acquires(s, step.op)
    && s.ops[step.op].phase.seen.Some?
    && var holder := s.ops[step.op].phase.seen.value.owner;
    && holder in s.ops && Critical(s.ops[holder]) && s.ops[holder].family == s.ops[step.op].family
  }

  ghost predicate NoLiveReclaim(states: seq<State>, steps: seq<Step>)
    requires |states| == |steps| + 1
  {
    forall i | 0 <= i < |steps| :: !LiveReclaim(states[i], steps[i])
  }

  lemma HeldStep(s: State, step: Step)
    requires Held(s) && Enabled(s, step)
    ensures Held(Next(s, step)) <==> !LiveReclaim(s, step)
  {
    if LiveReclaim(s, step) {
      var holder := s.ops[step.op].phase.seen.value.owner;
      assert Next(s, step).ops[holder] == s.ops[holder];
    }
  }

  lemma {:induction false} HeldThroughout(states: seq<State>, steps: seq<Step>, n: nat)
    requires IsRun(states, steps) && NoLiveReclaim(states, steps) && n < |states|
    ensures Held(states[n])
  {
    if n > 0 {
      HeldThroughout(states, steps, n - 1);
      HeldStep(states[n - 1], steps[n - 1]);
    }
  }

  /** The lock keeps a family's operations apart in every state of a run exactly when nothing in
      that run reclaimed the lock of an operation still in flight. */
  lemma ExclusiveIffNoLiveReclaim(states: seq<State>, steps: seq<Step>)
    requires IsRun(states, steps)
    ensures (forall n | 0 <= n < |states| :: Exclusive(states[n])) <==> NoLiveReclaim(states, steps)
  {
    if NoLiveReclaim(states, steps) {
      forall n | 0 <= n < |states| ensures Exclusive(states[n]) {
        HeldThroughout(states, steps, n);
      }
    } else {
      var i :| 0 <= i < |steps| && LiveReclaim(states[i], steps[i]);
      var s, o := states[i], steps[i].op;
      var holder := s.ops[o].phase.seen.value.owner;
      assert states[i + 1].ops[holder] == s.ops[holder] && Critical(states[i + 1].ops[o]);
      assert !Exclusive(states[i + 1]);
    }
  }

  // ----- why reclaiming is safe when runs are short -----

  /** Nothing in its critical section has held its lock row longer than the time to live. */
  ghost predicate Timely(s: State) {
    forall o | o in s.ops && Critical(s.ops[o]) :: s.now <= s.ops[o].at + STALE_SECONDS
  }

  ghost predicate StaleSeen(s: State) {
    forall o | o in s.ops && s.ops[o].phase.Looked? && s.ops[o].phase.stale ::
      s.ops[o].phase.seen.Some? && s.now > s.ops[o].phase.seen.value.at + STALE_SECONDS
  }

  lemma StaleSeenStep(s: State, step: Step)
    requires StaleSeen(s) && Enabled(s, step)
    ensures StaleSeen(Next(s, step))
  {
  }

  lemma {:induction false} StaleSeenThroughout(states: seq<State>, steps: seq<Step>, n: nat)
    requires IsRun(states, steps) && n < |states|
    ensures StaleSeen(states[n])
  {
    if n > 0 {
      StaleSeenThroughout(states, steps, n - 1);
      assert states[n] == Next(states[n - 1], steps[n - 1]);
      StaleSeenStep(states[n - 1], steps[n - 1]);
    }
  }

  lemma {:induction false} TimelyHolds(states: seq<State>, steps: seq<Step>, n: nat)
    requires IsRun(states, steps) && n < |states|
    requires forall i | 0 <= i < n :: Timely(states[i])
    ensures Held(states[n])
    ensures forall i | 0 <= i < n :: !LiveReclaim(states[i], steps[i])
  {
    if n > 0 {
      TimelyHolds(states, steps, n - 1);
      StaleSeenThroughout(states, steps, n - 1);
      HeldStep(states[n - 1], steps[n - 1]);
    }
  }

  /** If no operation outlives the time to live, no live lock is ever reclaimed, and operations
      of one family never overlap. */
  lemma TimelyRunsAreExclusive(states: seq<State>, steps: seq<Step>)
    requires IsRun(states, steps)
    requires forall i | 0 <= i < |states| :: Timely(states[i])
    ensures NoLiveReclaim(states, steps)
    ensures forall n | 0 <= n < |states| :: Exclusive(states[n])
  {
    TimelyHolds(states, steps, |steps|);
    ExclusiveIffNoLiveReclaim(states, steps);
  }

  /** The assumption is needed: whoever holds the lock for longer than the time to live while
      still at work is displaced by the next request of the same family, and both then own the
      same files. */
  lemma OverdueHolderIsDisplaced(s: State, o: OpId, kind: Kind, artifact: ArtifactId)
    requires Held(s) && o in s.ops && Critical(s.ops[o]) && o != s.nextId
    requires s.now > s.ops[o].at + STALE_SECONDS
    ensures var n := s.nextId;
      var arrived := Next(s, Arrive(kind, s.ops[o].family, artifact));
      && Enabled(arrived, Look(n))
      && Enabled(Next(arrived, Look(n)), Claim(n))
      && !Exclusive(Next(Next(arrived, Look(n)), Claim(n)))
  {
    var n, t := s.nextId, s.ops[o].family;
    var arrived := Next(s, Arrive(kind, t, artifact));
    var looked := Next(arrived, Look(n));
    assert looked.ops[n].phase == Looked(Some(Lock(o, s.ops[o].at)), true);
    assert Acquires(looked, n);
    var claimed := Next(looked, Claim(n));
    assert claimed.ops[o] == s.ops[o] && Critical(claimed.ops[n]);
  }

  /** Such a holder is reachable: one training request, and a clock that passes the limit. */
  lemma OverdueHolderIsReachable() returns (states: seq<State>, steps: seq<Step>)
    ensures IsRun(states, steps)
    ensures var s := states[|steps|];
      Held(s) && 0 in s.ops && Critical(s.ops[0]) && s.nextId == 1 && s.now > s.ops[0].at + STALE_SECONDS
  {
    var s0 := State(0, 0, map[], map[], PerType(None, None), PerType(NO_FILES, NO_FILES), PerType([], []), {});
    var op := Op(Training, Video, 7, Arriving, 0, NO_FILES, 0);
    var s1 := s0.(nextId := 1, ops := map[0 := op], jobs := map[0 := PENDING]);
    var s2 := s1.(ops := map[0 := op.(phase := Looked(None, false))]);
    var s3 := s2.(ops := map[0 := op.(phase := Entered)], locks := PerType(Some(Lock(0, 0)), None));
    var s4 := s3.(now := STALE_SECONDS + 1);
    states := [s0, s1, s2, s3, s4];
    steps := [Arrive(Training, Video, 7), Look(0), Claim(0), Tick(STALE_SECONDS + 1)];
    assert s1 == Next(s0, steps[0]);
    assert s2 == Next(s1, steps[1]);
    assert s3 == Next(s2, steps[2]);
  }

  // ----- who gets in -----

  predicate Stale(lock: Option<Lock>, now: nat) {
    lock.Some? && now > lock.value.at + STALE_SECONDS
  }

  predicate Moves(step: Step, r: OpId) {
    !step.Tick? && !step.Arrive? && step.op == r
  }

  lemma StaysInOneStep(s: State, step: Step, r: OpId)
    requires Enabled(s, step) && !Moves(step, r) && r in s.ops && r < s.nextId
    ensures var n := Next(s, step); r in n.ops && n.ops[r] == s.ops[r] && r < n.nextId
  {
  }

  lemma {:induction false} StaysPut(states: seq<State>, steps: seq<Step>, i: nat, j: nat, r: OpId)
    requires IsRun(states, steps) && i <= j < |states| && r in states[i].ops
    requires forall k | i <= k < j :: !Moves(steps[k], r)
    ensures r in states[j].ops && states[j].ops[r] == states[i].ops[r]
  {
    if j > i {
      StaysPut(states, steps, i, j - 1, r);
      FreshIds(states, steps, j - 1);
      StaysInOneStep(states[j - 1], steps[j - 1], r);
    }
  }

  /** Exactly when a request gets the lock, whatever happens between its two statements: the row was
      absent both times, or stale when it was read and still the same row when it is swapped.  Who
      owned it, and whether the owner is still at work, plays no part. */
  lemma RequestEntersIff(states: seq<State>, steps: seq<Step>, i: nat, j: nat, r: OpId)
    requires IsRun(states, steps) && i < j < |steps|
    requires steps[i] == Look(r) && steps[j] == Claim(r) && forall k | i < k < j :: !Moves(steps[k], r)
    ensures r in states[j + 1].ops
    ensures var family := states[i].ops[r].family;
      var seen, now := states[i].locks.At(family), states[j].locks.At(family);
      && (Critical(states[j + 1].ops[r]) <==> now == seen && (seen.None? || states[i].now > seen.value.at + 1800))
      && states[j + 1].locks.At(family) ==
           if Critical(states[j + 1].ops[r]) then Some(Lock(r, states[j].now)) else now
  {
    assert states[i + 1] == DoLook(states[i], r) && states[j + 1] == DoClaim(states[j], r);
    StaysPut(states, steps, i + 1, j, r);
  }

  /** An abandoned lock never blocks a family for good: once the row is older than the time to live,
      a request that is not interrupted gets in, whoever left the row behind. */
  lemma AbandonedLockIsReclaimed(s: State, kind: Kind, t: ModelType, artifact: ArtifactId)
    ensures var n := s.nextId;
      var arrived := Next(s, Arrive(kind, t, artifact));
      && Enabled(arrived, Look(n)) && Enabled(Next(arrived, Look(n)), Claim(n))
      && var claimed := Next(Next(arrived, Look(n)), Claim(n));
         && (Critical(claimed.ops[n]) <==> s.locks.At(t).None? || Stale(s.locks.At(t), s.now))
         && (Critical(claimed.ops[n]) ==> claimed.locks.At(t) == Some(Lock(n, s.now)))
  {
    var n := s.nextId;
    var arrived := Next(s, Arrive(kind, t, artifact));
    var looked := Next(arrived, Look(n));
    assert looked.ops[n].phase == Looked(s.locks.At(t), Stale(s.locks.At(t), s.now));
  }

  /** Which steps write lock rows: a request that gets in, and a release that read its own row.  So a
      killed or raising operation leaves its row behind, as old as it is. */
  lemma LockWrites(s: State, step: Step, t: ModelType)
    requires Enabled(s, step)
    ensures var n := Next(s, step);
      var entered := step.Claim? && step.op in n.ops && n.ops[step.op].phase.Entered? && n.ops[step.op].family == t;
      var released := step.Release? && s.ops[step.op].family == t && s.ops[step.op].phase.mine;
      n.locks.At(t) == if entered then Some(Lock(step.op, s.now)) else if released then None else s.locks.At(t)
  {
  }

  /** Where an exception leads: an operation inside goes on to record the failure or to release, and
      only a killed process leaves at once. */
  lemma RaiseLeadsOn(s: State, o: OpId)
    requires Enabled(s, Raise(o))
    ensures var n, op := Next(s, Raise(o)), s.ops[o];
      && o in n.ops && n.ops[o].entry == op.entry && n.ops[o].performed == op.performed
      && (n.ops[o].phase == Filed(false) <==> (op.kind.Training? && op.phase.Filing?) || op.phase == Filed(true))
      && (n.ops[o].phase == Leaving <==>
            op.phase.Entered? || (op.kind.Rollback? && op.phase.Filing?) || op.phase == Filed(false))
      && n.locks == s.locks && n.files == s.files && n.jobs == s.jobs
  {
  }

  /** An operation comes to the active files exactly if what it validates is loadable and passes the
      smoke test; if not, it goes on without touching anything. */
  lemma ValidatedIff(s: State, o: OpId, smoke: bool)
    requires Enabled(s, Validate(o, smoke))
    ensures var n, op, f := Next(s, Validate(o, smoke)), s.ops[o], s.files.At(s.ops[o].family);
      var model := if op.kind.Training? then f.candidateModel else f.previousModel;
      var meta := if op.kind.Training? then f.candidateMeta else f.previousMeta;
      && n.files == s.files && n.locks == s.locks && o in n.ops
      && (n.ops[o].phase.Filing? && n.ops[o].phase.validated <==> model.Some? && meta == model && smoke)
      && (!(model.Some? && meta == model && smoke) ==>
            n.ops[o].phase == if op.kind.Training? then Filed(false) else Leaving)
  {
  }

  // ----- what a release releases -----

  predicate OwnedBy(lock: Option<Lock>, o: OpId) {
    lock.Some? && lock.value.owner == o
  }

  /** A release deletes whatever row is there by then if the row it read was its own.  So it takes
      another operation's row away exactly when the row was its own at the first statement and the
      other's at the second. */
  lemma ReleaseTakesAnothersRowIff(states: seq<State>, steps: seq<Step>, i: nat, j: nat, o: OpId)
    requires IsRun(states, steps) && i < j < |steps|
    requires steps[i] == ReadLock(o) && steps[j] == Release(o) && forall k | i < k < j :: !Moves(steps[k], o)
    ensures var family := states[i].ops[o].family;
      var seen, now, left := states[i].locks.At(family), states[j].locks.At(family), states[j + 1].locks.At(family);
      && (left == now <==> !OwnedBy(seen, o) || now.None?)
      && (now.Some? && !OwnedBy(now, o) && left != now <==> OwnedBy(seen, o) && now.Some? && !OwnedBy(now, o))
  {
    assert states[i + 1] == DoReadLock(states[i], o) && states[j + 1] == DoRelease(states[j], o);
    StaysPut(states, steps, i + 1, j, o);
  }

  ghost predicate ReadsOwnRow(s: State) {
    forall o | o in s.ops && s.ops[o].phase.Releasing? :: s.ops[o].phase.mine
  }

  lemma ReadsOwnRowStep(s: State, step: Step)
    requires Held(s) && ReadsOwnRow(s) && Enabled(s, step)
    ensures ReadsOwnRow(Next(s, step))
  {
  }

  lemma {:induction false} ReadsOwnRowThroughout(states: seq<State>, steps: seq<Step>, n: nat)
    requires IsRun(states, steps) && NoLiveReclaim(states, steps) && n < |states|
    ensures ReadsOwnRow(states[n])
  {
    if n > 0 {
      ReadsOwnRowThroughout(states, steps, n - 1);
      HeldThroughout(states, steps, n - 1);
      ReadsOwnRowStep(states[n - 1], steps[n - 1]);
    }
  }

  /** Without a live reclaim every release deletes its own row and no other. */
  lemma ReleaseTakesItsOwnRow(states: seq<State>, steps: seq<Step>, n: nat, o: OpId)
    requires IsRun(states, steps) && NoLiveReclaim(states, steps) && n < |steps| && steps[n] == Release(o)
    ensures var op := states[n].ops[o];
      && states[n].locks.At(op.family) == Some(Lock(o, op.at))
      && states[n + 1].locks == states[n].locks.With(op.family, None)
  {
    HeldThroughout(states, steps, n);
    ReadsOwnRowThroughout(states, steps, n);
    assert states[n + 1] == DoRelease(states[n], o);
  }

  lemma Extend(states: seq<State>, steps: seq<Step>, step: Step) returns (more: seq<State>)
    requires IsRun(states, steps) && Enabled(states[|steps|], step)
    ensures more == states + [Next(states[|steps|], step)] && IsRun(more, steps + [step])
  {
    more := states + [Next(states[|steps|], step)];
  }

  /** Rollback requests for the VIDEO model on a server without files. */
  function Requests(now: nat, ops: map<OpId, Op>, nextId: OpId, lock: Option<Lock>): State {
    State(now, nextId, ops, map[], PerType(lock, None), PerType(NO_FILES, NO_FILES), PerType([], []), {})
  }

  function Request(phase: Phase, at: nat): Op {
    Op(Rollback, Video, 0, phase, at, NO_FILES, 0)
  }

  const LATE: nat := STALE_SECONDS + 1

  lemma FirstEnters() returns (states: seq<State>, steps: seq<Step>)
    ensures IsRun(states, steps)
    ensures states[|steps|] == Requests(0, map[0 := Request(Entered, 0)], 1, Some(Lock(0, 0)))
  {
    var arrive := Arrive(Rollback, Video, 0);
    states, steps := [Requests(0, map[], 0, None)], [];
    states := Extend(states, steps, arrive);
    steps := steps + [arrive];
    assert states[|steps|] == Requests(0, map[0 := Request(Arriving, 0)], 1, None);
    states := Extend(states, steps, Look(0));
    steps := steps + [Look(0)];
    assert states[|steps|] == Requests(0, map[0 := Request(Looked(None, false), 0)], 1, None);
    states := Extend(states, steps, Claim(0));
    steps := steps + [Claim(0)];
  }

  /** The first request overstays, reads its own row in order to release it, and is reclaimed by the
      second before it deletes. */
  lemma Overtaken() returns (states: seq<State>, steps: seq<Step>)
    ensures IsRun(states, steps)
    ensures states[|steps|] ==
      Requests(LATE, map[0 := Request(Releasing(true), 0), 1 := Request(Entered, LATE)], 2, Some(Lock(1, LATE)))
  {
    states, steps := FirstEnters();
    states := Extend(states, steps, Raise(0));
    steps := steps + [Raise(0)];
    assert states[|steps|] == Requests(0, map[0 := Request(Leaving, 0)], 1, Some(Lock(0, 0)));
    states := Extend(states, steps, Tick(LATE));
    steps := steps + [Tick(LATE)];
    states := Extend(states, steps, ReadLock(0));
    steps := steps + [ReadLock(0)];
    assert states[|steps|] == Requests(LATE, map[0 := Request(Releasing(true), 0)], 1, Some(Lock(0, 0)));
    states, steps := Overtakes(states, steps);
  }

  lemma Overtakes(states: seq<State>, steps: seq<Step>) returns (more: seq<State>, moreSteps: seq<Step>)
    requires IsRun(states, steps)
    requires states[|steps|] == Requests(LATE, map[0 := Request(Releasing(true), 0)], 1, Some(Lock(0, 0)))
    ensures IsRun(more, moreSteps)
    ensures more[|moreSteps|] ==
      Requests(LATE, map[0 := Request(Releasing(true), 0), 1 := Request(Entered, LATE)], 2, Some(Lock(1, LATE)))
  {
    var first, stale := Request(Releasing(true), 0), Looked(Some(Lock(0, 0)), true);
    more := Extend(states, steps, Arrive(Rollback, Video, 0));
    moreSteps := steps + [Arrive(Rollback, Video, 0)];
    assert more[|moreSteps|] == Requests(LATE, map[0 := first, 1 := Request(Arriving, 0)], 2, Some(Lock(0, 0)));
    more := Extend(more, moreSteps, Look(1));
    moreSteps := moreSteps + [Look(1)];
    assert more[|moreSteps|] == Requests(LATE, map[0 := first, 1 := Request(stale, 0)], 2, Some(Lock(0, 0)));
    more := Extend(more, moreSteps, Claim(1));
    moreSteps := moreSteps + [Claim(1)];
  }

  /** The module promises that a job which lost its lock to a newer one does not release the newer
      one's.  It can: the first request's delete removes the second's fresh row, a third request
      enters on no row at all, and two operations within their time to live own the same files. */
  lemma NewcomerLosesItsRow() returns (states: seq<State>, steps: seq<Step>)
    ensures IsRun(states, steps)
    ensures var s := states[|steps|];
      && 1 in s.ops && 2 in s.ops && Critical(s.ops[1]) && Critical(s.ops[2]) && s.ops[1].family == s.ops[2].family
      && Timely(s) && !Exclusive(s) && !OwnedBy(s.locks.At(s.ops[1].family), 1)
  {
    states, steps := Overtaken();
    states := Extend(states, steps, Release(0));
    steps := steps + [Release(0)];
    var gone, second := states[|steps|], Request(Entered, LATE);
    assert gone.ops == map[1 := second] && gone.locks == PerType(None, None) && gone.nextId == 2 && gone.now == LATE;
    states := Extend(states, steps, Arrive(Rollback, Video, 0));
    steps := steps + [Arrive(Rollback, Video, 0)];
    assert states[|steps|].ops == map[1 := second, 2 := Request(Arriving, 0)];
    states := Extend(states, steps, Look(2));
    steps := steps + [Look(2)];
    assert states[|steps|].ops == map[1 := second, 2 := Request(Looked(None, false), 0)];
    states := Extend(states, steps, Claim(2));
    steps := steps + [Claim(2)];
    assert states[|steps|].ops == map[1 := second, 2 := second];
    assert states[|steps|].locks.At(Video) == Some(Lock(2, LATE));
  }

  // ----- who touches what -----

  /** A family's files change only in a file action of an operation inside that family's critical
      section, which owns the lock row as long as nothing live was reclaimed. */
  lemma OnlyTheHolderTouchesFiles(states: seq<State>, steps: seq<Step>, i: nat, t: ModelType)
    requires IsRun(states, steps) && NoLiveReclaim(states, steps) && i < |steps|
    requires states[i + 1].files.At(t) != states[i].files.At(t)
    ensures steps[i].Act? && steps[i].op in states[i].ops && states[i].ops[steps[i].op].family == t
    ensures states[i].locks.At(t).Some? && states[i].locks.At(t).value.owner == steps[i].op
  {
    HeldThroughout(states, steps, i);
  }

  /** The operation that takes a step, if it is not the clock's. */
  function FamilyOf(s: State, step: Step): Option<ModelType> {
    if step.Tick? then None
    else if step.Arrive? then Some(step.family)
    else if step.op in s.ops then Some(s.ops[step.op].family)
    else None
  }

  lemma OtherFamilyStays(s: State, step: Step, t: ModelType)
    requires Enabled(s, step) && FamilyOf(s, step) != Some(t)
    ensures Share(Next(s, step), t) == Share(s, t)
  {
    match step
    case Tick(_) =>
    case Arrive(_, _, _) =>
    case _ => assert s.ops[step.op].family != t;
  }

  /** All that belongs to one family. */
  function Share(s: State, t: ModelType): (Option<Lock>, Files, seq<Record>) {
    (s.locks.At(t), s.files.At(t), s.history.At(t))
  }

  lemma {:induction false} ShareStays(states: seq<State>, steps: seq<Step>, t: ModelType, i: nat, j: nat)
    requires IsRun(states, steps) && i <= j < |states|
    requires forall k | i <= k < j :: FamilyOf(states[k], steps[k]) != Some(t)
    ensures Share(states[j], t) == Share(states[i], t)
  {
    if i < j {
      ShareStays(states, steps, t, i, j - 1);
      OtherFamilyStays(states[j - 1], steps[j - 1], t);
    }
  }

  /** However long VIDEO steps go on, LIVE's lock, files and history stay as they were, and the
      other way round. */
  lemma FamiliesAreIndependent(states: seq<State>, steps: seq<Step>, t: ModelType, i: nat, j: nat)
    requires IsRun(states, steps) && i <= j < |states|
    requires forall k | i <= k < j :: FamilyOf(states[k], steps[k]) != Some(t)
    ensures states[j].locks.At(t) == states[i].locks.At(t)
    ensures states[j].files.At(t) == states[i].files.At(t)
    ensures states[j].history.At(t) == states[i].history.At(t)
  {
    ShareStays(states, steps, t, i, j);
  }
}
