/**
 The life of a training job across whole runs, and what a client that polls it can observe
 (app/services/job_store.py, app/api/training_routes.py, scripts/prepare_demo.py).
 */
module TrainingJobs {
  import opened Basics
  import opened Artifacts
  import opened TrainingProtocol
  import opened TrainingSerial

  /** How far a job row can be, given where its operation is. */
  predicate Agrees(op: Op, status: JobStatus) {
    match op.phase
    case Filing(_, _) => status == RUNNING
    case Filed(_) => status == RUNNING
    case Leaving => status in {PENDING, RUNNING, SUCCEEDED, FAILED}
    case Releasing(_) => status in {PENDING, RUNNING, SUCCEEDED, FAILED}
    case _ => status == PENDING
  }

  /** Every training operation in flight has its job row, in the status its phase calls for; the
      other rows are those of operations that are gone. */
  ghost predicate JobsAgree(s: State) {
    && (forall o | o in s.ops || o in s.jobs :: o < s.nextId)
    && (forall o | o in s.ops :: s.ops[o].kind.Training? ==> o in s.jobs && Agrees(s.ops[o], s.jobs[o]))
    && (forall o | o in s.ops :: s.ops[o].kind.Rollback? ==> !s.ops[o].phase.Filed?)
  }

  lemma JobsAgreeStep(s: State, step: Step)
    requires JobsAgree(s) && Enabled(s, step)
    ensures JobsAgree(Next(s, step))
  {
    var n := Next(s, step);
    if !step.Tick? && !step.Arrive? {
      OnlyOwnJobMoves(s, step);
      if step.op in n.ops { OwnJobAgrees(s, step); }
    }
  }

  lemma OnlyOwnJobMoves(s: State, step: Step)
    requires Enabled(s, step) && !step.Tick? && !step.Arrive?
    ensures var n := Next(s, step);
      && n.nextId == s.nextId
      && (forall o | o in n.ops :: o in s.ops && (o != step.op ==> n.ops[o] == s.ops[o]))
      && (forall o | o in n.jobs :: o in s.jobs || o == step.op)
      && (forall o | o in s.jobs :: o in n.jobs && (o != step.op ==> n.jobs[o] == s.jobs[o]))
  {
  }

  lemma OwnJobAgrees(s: State, step: Step)
    requires JobsAgree(s) && Enabled(s, step) && !step.Tick? && !step.Arrive?
    requires step.op in Next(s, step).ops
    ensures var n, o := Next(s, step), step.op;
      if n.ops[o].kind.Training? then o in n.jobs && Agrees(n.ops[o], n.jobs[o]) else !n.ops[o].phase.Filed?
  {
  }

  lemma {:induction false} JobsAgreeThroughout(states: seq<State>, steps: seq<Step>, n: nat)
    requires IsRun(states, steps) && n < |states|
    ensures JobsAgree(states[n])
  {
    if n > 0 {
      JobsAgreeThroughout(states, steps, n - 1);
      JobsAgreeStep(states[n - 1], steps[n - 1]);
    }
  }

  /** The job store never has to reject a transition the routes ask for. */
  lemma NoTransitionIsRejected(states: seq<State>, steps: seq<Step>, n: nat, o: OpId)
    requires IsRun(states, steps) && n < |states|
    requires o in states[n].ops && states[n].ops[o].kind.Training?
    ensures var s := states[n];
      && (s.ops[o].phase.Refused? ==> Enabled(s, TurnAway(o)))
      && (s.ops[o].phase.Entered? ==> Enabled(s, Begin(o)))
      && (s.ops[o].phase.Filed? ==> Enabled(s, Mark(o)))
  {
    JobsAgreeThroughout(states, steps, n);
  }

  predicate Reaches(from: JobStatus, to: JobStatus) {
    from == to || (from == PENDING && to in {RUNNING, SUCCEEDED, FAILED}) || (from == RUNNING && to in {SUCCEEDED, FAILED})
  }

  /** Over any stretch of any run a job only moves forward, a finished job never changes, and
      nothing is ever CANCELLED that was not before. */
  lemma {:induction false} JobsOnlyMoveForward(states: seq<State>, steps: seq<Step>, i: nat, j: nat, o: OpId)
    requires IsRun(states, steps) && i <= j < |states| && o in states[i].jobs
    ensures o in states[j].jobs && Reaches(states[i].jobs[o], states[j].jobs[o])
  {
    if i < j {
      JobsOnlyMoveForward(states, steps, i, j - 1, o);
      JobsAgreeThroughout(states, steps, j - 1);
      assert states[j] == Next(states[j - 1], steps[j - 1]);
    }
  }

  /** Refused, or already gone. */
  predicate TurnedAway(s: State, o: OpId) {
    && o < s.nextId && o in s.jobs && s.jobs[o] in {PENDING, FAILED}
    && (o in s.ops ==> s.ops[o].phase.Refused? && s.ops[o].kind.Training?)
  }

  lemma TurnedAwayStep(s: State, step: Step, o: OpId)
    requires TurnedAway(s, o) && Enabled(s, step)
    ensures TurnedAway(Next(s, step), o)
  {
  }

  /** A job that was refused the lock never runs: it stays PENDING or becomes FAILED. */
  lemma {:induction false} RefusedJobNeverRuns(states: seq<State>, steps: seq<Step>, i: nat, j: nat, o: OpId)
    requires IsRun(states, steps) && i <= j < |states|
    requires o in states[i].ops && states[i].ops[o].kind.Training? && states[i].ops[o].phase.Refused?
    ensures TurnedAway(states[j], o)
  {
    if i < j {
      RefusedJobNeverRuns(states, steps, i, j - 1, o);
      assert states[j] == Next(states[j - 1], steps[j - 1]);
      TurnedAwayStep(states[j - 1], steps[j - 1], o);
    } else {
      JobsAgreeThroughout(states, steps, i);
    }
  }

  /** A refused training request that is answered leaves its job FAILED, whatever happens after. */
  lemma RefusalIsRecorded(states: seq<State>, steps: seq<Step>, i: nat, j: nat, o: OpId)
    requires IsRun(states, steps) && i < j < |states| && steps[i] == TurnAway(o)
    requires states[i].ops[o].kind.Training?
    ensures o in states[j].jobs && states[j].jobs[o] == FAILED
  {
    assert states[i + 1] == Next(states[i], steps[i]);
    JobsOnlyMoveForward(states, steps, i + 1, j, o);
  }

  /** ... and one whose process dies instead leaves it PENDING for good. */
  lemma {:induction false} DeadRefusalStaysPending(states: seq<State>, steps: seq<Step>, i: nat, j: nat, o: OpId)
    requires IsRun(states, steps) && i < j < |states| && steps[i] == Vanish(o)
    requires states[i].ops[o].kind.Training? && states[i].ops[o].phase.Refused?
    ensures o in states[j].jobs && states[j].jobs[o] == PENDING && o !in states[j].ops
  {
    assert states[j] == Next(states[j - 1], steps[j - 1]);
    if j == i + 1 {
      JobsAgreeThroughout(states, steps, i);
    } else {
      DeadRefusalStaysPending(states, steps, i, j - 1, o);
      JobsAgreeThroughout(states, steps, j - 1);
    }
  }

  /** A refused request leaves by one of those two. */
  lemma {:induction false} RefusedLeaves(states: seq<State>, steps: seq<Step>, i: nat, j: nat, o: OpId) returns (k: nat)
    requires IsRun(states, steps) && i <= j < |states|
    requires o in states[i].ops && states[i].ops[o].kind.Training? && states[i].ops[o].phase.Refused?
    requires o !in states[j].ops
    ensures i <= k < j && (steps[k] == TurnAway(o) || steps[k] == Vanish(o))
    ensures o in states[k].ops && states[k].ops[o].kind.Training? && states[k].ops[o].phase.Refused?
  {
    RefusedJobNeverRuns(states, steps, i, j - 1, o);
    assert states[j] == Next(states[j - 1], steps[j - 1]);
    if o in states[j - 1].ops {
      k := j - 1;
    } else {
      k := RefusedLeaves(states, steps, i, j - 1, o);
    }
  }

  /** So, in every run, the job of a refused request that is gone is FAILED exactly if the request was
      answered, and PENDING exactly if its process died before. */
  lemma RefusedJobEnds(states: seq<State>, steps: seq<Step>, i: nat, j: nat, o: OpId)
    requires IsRun(states, steps) && i <= j < |states|
    requires o in states[i].ops && states[i].ops[o].kind.Training? && states[i].ops[o].phase.Refused?
    requires o !in states[j].ops
    ensures o in states[j].jobs
    ensures states[j].jobs[o] == FAILED <==> exists k :: i <= k < j && steps[k] == TurnAway(o)
    ensures states[j].jobs[o] == PENDING <==> exists k :: i <= k < j && steps[k] == Vanish(o)
  {
    var k := RefusedLeaves(states, steps, i, j, o);
    if steps[k] == TurnAway(o) { RefusalIsRecorded(states, steps, k, j, o); } else { DeadRefusalStaysPending(states, steps, k, j, o); }
    forall m | i <= m < j && steps[m] == TurnAway(o) ensures states[j].jobs[o] == FAILED {
      RefusedJobNeverRuns(states, steps, i, m, o);
      RefusalIsRecorded(states, steps, m, j, o);
    }
    forall m | i <= m < j && steps[m] == Vanish(o) ensures states[j].jobs[o] == PENDING {
      RefusedJobNeverRuns(states, steps, i, m, o);
      DeadRefusalStaysPending(states, steps, m, j, o);
    }
  }

  /** Which steps write job rows, and what they write: everything else leaves every row alone. */
  lemma JobWrites(s: State, step: Step, o: OpId)
    requires JobsAgree(s) && Enabled(s, step)
    ensures var n := Next(s, step);
      match step
      case Arrive(kind, _, _) =>
        n.jobs == (if kind.Training? then s.jobs[s.nextId := PENDING] else s.jobs)
      case TurnAway(p) => n.jobs == (if s.ops[p].kind.Training? then s.jobs[p := FAILED] else s.jobs)
      case Begin(p) => n.jobs == s.jobs[p := RUNNING]
      case Mark(p) => n.jobs == s.jobs[p := if s.ops[p].phase == Filed(true) then SUCCEEDED else FAILED]
      case _ => n.jobs == s.jobs
  {
  }

  // ----- what a status means to whoever polls it -----

  /** When a job becomes SUCCEEDED its own artifact is the one being served -- and its lock is
      still taken, because the release comes after the status is written. */
  lemma SucceededMeansServing(states: seq<State>, steps: seq<Step>, n: nat, o: OpId)
    requires IsRun(states, steps) && NoLiveReclaim(states, steps) && n < |steps|
    requires steps[n] == Mark(o) && states[n].ops[o].phase.ok
    ensures var s, op := states[n + 1], states[n].ops[o];
      && s.jobs[o] == SUCCEEDED
      && Active(s.files.At(op.family)) == Ready(op.artifact)
      && s.locks.At(op.family) == Some(Lock(o, op.at))
  {
    FiledIsServing(states, steps, n, o);
    HeldThroughout(states, steps, n);
  }

  lemma FiledIsServing(states: seq<State>, steps: seq<Step>, n: nat, o: OpId)
    requires IsRun(states, steps) && NoLiveReclaim(states, steps) && n < |states|
    requires o in states[n].ops && states[n].ops[o].kind.Training? && states[n].ops[o].phase == Filed(true)
    ensures Active(states[n].files.At(states[n].ops[o].family)) == Ready(states[n].ops[o].artifact)
  {
    var op := states[n].ops[o];
    SerialThroughout(states, steps, n, op.family);
    PromotionFinished(op.artifact, op.entry);
    assert ProgramOf(op)[..op.performed] == ProgramOf(op);
  }

  /** What a job that becomes FAILED leaves active: decided by how far its promotion came, for every
      stopping point.  FAILED means that nothing changed exactly when `LeavesActive` holds, and the
      failed run's own artifact is live exactly when `GoesLive` does. */
  lemma FailedLeaves(states: seq<State>, steps: seq<Step>, n: nat, o: OpId)
    requires IsRun(states, steps) && NoLiveReclaim(states, steps) && n < |steps|
    requires steps[n] == Mark(o) && !states[n].ops[o].phase.ok
    ensures var s, op := states[n + 1], states[n].ops[o];
      var active := Active(s.files.At(op.family));
      && s.jobs[o] == FAILED
      && s.files.At(op.family) == Stopped(Training, op.artifact, op.entry, op.performed)
      && (active == Active(op.entry) <==> LeavesActive(op.artifact, op.entry, op.performed))
      && (active == Ready(op.artifact) <==> GoesLive(op.artifact, op.entry, op.performed))
      && (Active(op.entry) != Missing ==> (active == Missing <==> 3 <= op.performed < 7))
  {
    var op := states[n].ops[o];
    assert states[n + 1] == Next(states[n], steps[n]);
    SerialThroughout(states, steps, n, op.family);
    StoppedPromotionServes(op.artifact, op.entry, op.performed);
    PromotionStopped(op.artifact, op.entry, op.performed);
  }

  // ----- every such failure can happen -----

  /** A VIDEO training run alone on the server, `k` actions into its program. */
  ghost predicate Alone(s: State, f: Files, c: ArtifactId, k: nat) {
    var p := Program(Training, c, f);
    && k <= |p| && s.locks.At(Video) == Some(Lock(0, 0)) && s.jobs == map[0 := RUNNING]
    && s.files.At(Video) == Play(f, p[..k])
    && s.ops == map[0 := Op(Training, Video, c, PhaseAt(f, c, k), 0, f, k)]
  }

  function PhaseAt(f: Files, c: ArtifactId, k: nat): Phase
    requires k <= |Program(Training, c, f)|
  {
    var p := Program(Training, c, f);
    if k < 2 then Filing(SaveProgram(c)[k..], false) else if k < |p| then Filing(p[k..], true) else Filed(true)
  }

  /** Every action of a promotion finds the file it moves. */
  lemma ActionsArePossible(f: Files, c: ArtifactId, k: nat)
    requires k < |Program(Training, c, f)|
    ensures Possible(Play(f, Program(Training, c, f)[..k]), Program(Training, c, f)[k])
  {
    PromotionIs(c, f);
    if Active(f) != Missing { ReplacementTrace(c, f, k); } else { FirstTrace(c, f, k); }
  }

  lemma ExtendUnreclaimed(states: seq<State>, steps: seq<Step>, step: Step) returns (more: seq<State>)
    requires IsRun(states, steps) && Enabled(states[|steps|], step)
    requires NoLiveReclaim(states, steps) && !LiveReclaim(states[|steps|], step)
    ensures more == states + [Next(states[|steps|], step)]
    ensures IsRun(more, steps + [step]) && NoLiveReclaim(more, steps + [step])
  {
    more := Extend(states, steps, step);
  }

  /** One training request on a server with files `f`, before its first step and after each. */
  function Requested(f: Files, c: ArtifactId, phase: Phase): State {
    State(0, 1, map[0 := Op(Training, Video, c, phase, 0, NO_FILES, 0)], map[0 := PENDING], PerType(None, None),
          PerType(f, NO_FILES), PerType([], []), Recorded(f))
  }

  function Admitted(f: Files, c: ArtifactId): State {
    Requested(f, c, Entered).(ops := map[0 := Op(Training, Video, c, Entered, 0, f, 0)],
                              locks := PerType(Some(Lock(0, 0)), None))
  }

  lemma Asks(f: Files, c: ArtifactId)
    ensures var arriving, looked := Requested(f, c, Arriving), Requested(f, c, Looked(None, false));
      && Enabled(arriving, Look(0)) && Next(arriving, Look(0)) == looked
      && Enabled(looked, Claim(0)) && Next(looked, Claim(0)) == Admitted(f, c)
      && !LiveReclaim(looked, Claim(0))
  {
  }

  lemma Asked(f: Files, c: ArtifactId) returns (states: seq<State>, steps: seq<Step>)
    ensures IsRun(states, steps) && NoLiveReclaim(states, steps)
    ensures states[0].files.At(Video) == f && states[|steps|] == Requested(f, c, Arriving)
  {
    var s := State(0, 0, map[], map[], PerType(None, None), PerType(f, NO_FILES), PerType([], []), Recorded(f));
    states := ExtendUnreclaimed([s], [], Arrive(Training, Video, c));
    steps := [Arrive(Training, Video, c)];
  }

  lemma Started(f: Files, c: ArtifactId) returns (states: seq<State>, steps: seq<Step>)
    ensures IsRun(states, steps) && NoLiveReclaim(states, steps)
    ensures states[0].files.At(Video) == f && Alone(states[|steps|], f, c, 0)
  {
    Asks(f, c);
    StartedSaving(f, c);
    states, steps := Asked(f, c);
    states := ExtendUnreclaimed(states, steps, Look(0));
    steps := steps + [Look(0)];
    states := ExtendUnreclaimed(states, steps, Claim(0));
    steps := steps + [Claim(0)];
    states := ExtendUnreclaimed(states, steps, Begin(0));
    steps := steps + [Begin(0)];
  }

  lemma StartedSaving(f: Files, c: ArtifactId)
    ensures Enabled(Admitted(f, c), Begin(0)) && Alone(Next(Admitted(f, c), Begin(0)), f, c, 0)
  {
    assert Program(Training, c, f)[..0] == [] && SaveProgram(c)[0..] == SaveProgram(c);
  }

  /** One more action, and the validation once the candidate is saved. */
  lemma OneMoreAction(states: seq<State>, steps: seq<Step>, f: Files, c: ArtifactId, k: nat)
    returns (more: seq<State>, moreSteps: seq<Step>)
    requires IsRun(states, steps) && NoLiveReclaim(states, steps)
    requires Alone(states[|steps|], f, c, k) && k < |Program(Training, c, f)|
    ensures IsRun(more, moreSteps) && NoLiveReclaim(more, moreSteps)
    ensures more[0] == states[0] && Alone(more[|moreSteps|], f, c, k + 1)
  {
    NextAction(states[|steps|], f, c, k);
    more := ExtendUnreclaimed(states, steps, Act(0));
    moreSteps := steps + [Act(0)];
    if k == 1 {
      more := ExtendUnreclaimed(more, moreSteps, Validate(0, true));
      moreSteps := moreSteps + [Validate(0, true)];
    }
  }

  lemma NextAction(s: State, f: Files, c: ArtifactId, k: nat)
    requires Alone(s, f, c, k) && k < |Program(Training, c, f)|
    ensures Enabled(s, Act(0))
    ensures k != 1 ==> Alone(Next(s, Act(0)), f, c, k + 1)
    ensures k == 1 ==> Enabled(Next(s, Act(0)), Validate(0, true))
                       && Alone(Next(Next(s, Act(0)), Validate(0, true)), f, c, k + 1)
  {
    var p := Program(Training, c, f);
    ActionsArePossible(f, c, k);
    SavedCandidate(f, c);
    PlayStep(f, p, k);
    assert s.ops[0].phase.todo[0] == p[k];
    if k == 1 {
      assert Next(s, Act(0)).files.At(Video) == Play(f, SaveProgram(c));
    }
  }

  lemma {:induction false} Underway(f: Files, c: ArtifactId, k: nat) returns (states: seq<State>, steps: seq<Step>)
    requires k <= |Program(Training, c, f)|
    ensures IsRun(states, steps) && NoLiveReclaim(states, steps)
    ensures states[0].files.At(Video) == f && Alone(states[|steps|], f, c, k)
  {
    if k == 0 {
      states, steps := Started(f, c);
    } else {
      states, steps := Underway(f, c, k - 1);
      states, steps := OneMoreAction(states, steps, f, c, k - 1);
    }
  }

  /** Every row of that table is real: from any files, and for any number of actions, there is a run
      of one training request that ends FAILED after exactly those. */
  lemma EveryFailureIsReachable(f: Files, c: ArtifactId, k: nat) returns (states: seq<State>, steps: seq<Step>)
    requires k <= |Program(Training, c, f)|
    ensures IsRun(states, steps) && NoLiveReclaim(states, steps) && states[0].files.At(Video) == f
    ensures var s := states[|steps|];
      s.jobs == map[0 := FAILED] && s.files.At(Video) == Stopped(Training, c, f, k)
  {
    states, steps := Underway(f, c, k);
    FailsNext(states[|steps|], f, c, k);
    states := ExtendUnreclaimed(states, steps, Raise(0));
    steps := steps + [Raise(0)];
    states := ExtendUnreclaimed(states, steps, Mark(0));
    steps := steps + [Mark(0)];
  }

  lemma FailsNext(s: State, f: Files, c: ArtifactId, k: nat)
    requires Alone(s, f, c, k)
    ensures Enabled(s, Raise(0)) && Enabled(Next(s, Raise(0)), Mark(0))
    ensures var n := Next(Next(s, Raise(0)), Mark(0));
      n.jobs == map[0 := FAILED] && n.files.At(Video) == Stopped(Training, c, f, k)
  {
    assert Next(s, Raise(0)).ops[0].phase == Filed(false);
  }

  // ----- requests that come too early -----

  /** Has read a lock row that is not stale and not yet answered, was refused, or is gone. */
  predicate Rebuffed(s: State, r: OpId) {
    && r < s.nextId
    && (r in s.ops ==> match s.ops[r].phase
                       case Looked(seen, stale) => seen.Some? && !stale
                       case Refused => true
                       case _ => false)
  }

  lemma RebuffedStep(s: State, step: Step, r: OpId)
    requires Rebuffed(s, r) && Enabled(s, step)
    ensures Rebuffed(Next(s, step), r)
  {
  }

  /** A request that reads a lock row within its time to live never gets to the files: not in any
      continuation of the run, even if the lock is free before it answers.  So a rollback sent
      between SUCCEEDED and the release is lost. */
  lemma {:induction false} EarlyRequestIsRefused(states: seq<State>, steps: seq<Step>, i: nat, j: nat, r: OpId)
    requires IsRun(states, steps) && i < |steps| && i < j < |states|
    requires steps[i] == Look(r)
    requires var row := states[i].locks.At(states[i].ops[r].family); row.Some? && !Stale(row, states[i].now)
    ensures Rebuffed(states[j], r) && (r in states[j].ops ==> !Critical(states[j].ops[r]))
  {
    assert states[j] == Next(states[j - 1], steps[j - 1]);
    if j == i + 1 {
      FreshIds(states, steps, i);
    } else {
      EarlyRequestIsRefused(states, steps, i, j - 1, r);
      RebuffedStep(states[j - 1], steps[j - 1], r);
    }
  }
}
