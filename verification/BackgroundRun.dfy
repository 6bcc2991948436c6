/**
 One background training run against a database session that can break
 (`_run_training_job`, `_run_live_training_job`, `_fail_job_safely`, `_release_lock_safely` in
 app/api/training_routes.py).

 After a statement that aborts the transaction, every further statement on the same session
 raises until a ROLLBACK gets through.
 */
module BackgroundRun {
  import opened Basics
  import opened TrainingProtocol

  /** Whether a statement works when the session is healthy; if not, whether it aborts the
      transaction. */
  datatype Fault = Fine | Breaks(aborts: bool)

  /** `train` either returns or raises; either way it may leave the session aborted. */
  datatype Training = Returns(aborts: bool) | Raises(aborts: bool)

  /** Everything that can go wrong in one run, in the order it can happen. */
  datatype Faults = Faults(
    markRunning: Fault, train: Training, markSucceeded: Fault,
    firstRollback: bool, markFailed: Fault, secondRollback: bool,
    release: Fault, thirdRollback: bool)

  /** `train` raised, or the job could not be marked SUCCEEDED. */
  predicate Trouble(f: Faults) {
    f.train.Raises? || f.train.aborts || f.markSucceeded.Breaks?
  }

  /** The session is aborted when the failure handler starts. */
  predicate Poisoned(f: Faults) {
    if f.train.Raises? then f.train.aborts else f.train.aborts || f.markSucceeded == Breaks(true)
  }

  class Store {
    var jobs: map<OpId, JobStatus>
    var locks: map<ModelType, OpId>

    constructor ()
      ensures jobs == map[] && locks == map[]
    {
      jobs := map[];
      locks := map[];
    }
  }

  class Session {
    var aborted: bool
    const store: Store

    constructor (store: Store)
      ensures this.store == store && !aborted
    {
      this.store := store;
      this.aborted := false;
    }

    /** One statement; answers whether it went through. */
    method Statement(fault: Fault) returns (ok: bool)
      modifies this
      ensures ok == (!old(aborted) && fault.Fine?)
      ensures aborted == (old(aborted) || fault == Breaks(true))
    {
      if aborted { return false; }
      aborted := fault == Breaks(true);
      return fault.Fine?;
    }

    method Rollback(works: bool)
      modifies this
      ensures aborted == (old(aborted) && !works)
    {
      if works { aborted := false; }
    }

    /** A job-store transition: persisted, or it raises and the row is as before. */
    method MoveJob(job: OpId, to: JobStatus, fault: Fault) returns (ok: bool)
      requires job in store.jobs && Allowed(store.jobs[job], to)
      modifies this, store`jobs
      ensures ok == (!old(aborted) && fault.Fine?)
      ensures aborted == (old(aborted) || fault == Breaks(true))
      ensures store.jobs == if ok then old(store.jobs)[job := to] else old(store.jobs)
    {
      ok := Statement(fault);
      if ok { store.jobs := store.jobs[job := to]; }
    }

    /** Deletes the lock row only if `job` still owns it. */
    method ReleaseLock(family: ModelType, job: OpId, fault: Fault) returns (ok: bool)
      modifies this, store`locks
      ensures ok == (!old(aborted) && fault.Fine?)
      ensures var mine := family in old(store.locks) && old(store.locks)[family] == job;
        store.locks == if ok && mine then old(store.locks) - {family} else old(store.locks)
    {
      ok := Statement(fault);
      if ok && family in store.locks && store.locks[family] == job {
        store.locks := store.locks - {family};
      }
    }
  }

  method FailJobSafely(db: Session, job: OpId, f: Faults)
    requires job in db.store.jobs && db.store.jobs[job] == RUNNING
    modifies db, db.store`jobs
    ensures var marked := (f.firstRollback || !old(db.aborted)) && f.markFailed.Fine?;
      && db.store.jobs == (if marked then old(db.store.jobs)[job := FAILED] else old(db.store.jobs))
      && (db.aborted <==> !f.secondRollback
                          && ((old(db.aborted) && !f.firstRollback) || f.markFailed == Breaks(true)))
  {
    db.Rollback(f.firstRollback);
    var marked := db.MoveJob(job, FAILED, f.markFailed);
    if !marked {
      db.Rollback(f.secondRollback);
    }
  }

  method ReleaseLockSafely(db: Session, family: ModelType, job: OpId, f: Faults)
    modifies db, db.store`locks
    ensures var mine := family in old(db.store.locks) && old(db.store.locks)[family] == job;
      db.store.locks ==
        if !old(db.aborted) && f.release.Fine? && mine then old(db.store.locks) - {family} else old(db.store.locks)
  {
    var ok := db.ReleaseLock(family, job, f.release);
    if !ok {
      db.Rollback(f.thirdRollback);
    }
  }

  /** The whole run.  What becomes of the job and of the lock, in terms of what went wrong;
      `escaped` tells whether an exception leaves the background run.

      Fault tolerance: once the job is RUNNING and as long as ROLLBACK works, whatever `train`,
      `mark_succeeded` or `mark_failed` raise, the lock comes back exactly when the release
      statement works, and the job is terminal exactly when it succeeded or `mark_failed` worked.
      Only a `mark_running` that aborts the transaction defeats a working release: nothing rolls
      back in between. */
  method RunTrainingJob(store: Store, family: ModelType, job: OpId, f: Faults) returns (escaped: bool)
    requires job in store.jobs && store.jobs[job] == PENDING
    modifies store
    ensures escaped <==> f.markRunning.Breaks?
    ensures store.jobs == old(store.jobs)[job := FinalStatus(f)]
    ensures store.locks ==
      if family in old(store.locks) && old(store.locks)[family] == job && Releases(f)
      then old(store.locks) - {family} else old(store.locks)
    ensures family in old(store.locks) && old(store.locks)[family] == job && f.firstRollback && f.secondRollback ==>
      (family !in store.locks <==> f.release.Fine? && f.markRunning != Breaks(true))
    ensures f.markRunning.Fine? && f.firstRollback && f.secondRollback ==>
      (store.jobs[job] in {SUCCEEDED, FAILED} <==> !Trouble(f) || f.markFailed.Fine?)
    ensures store.jobs[job] == PENDING <==> f.markRunning.Breaks?
    ensures store.jobs[job] == SUCCEEDED <==>
      f.markRunning.Fine? && f.train == Returns(false) && f.markSucceeded.Fine?
    ensures store.jobs[job] == FAILED <==>
      && f.markRunning.Fine? && !(f.train == Returns(false) && f.markSucceeded.Fine?)
      && f.markFailed.Fine? && (f.firstRollback || !(f.train.aborts || (f.train.Returns? && f.markSucceeded == Breaks(true))))
    ensures store.jobs[job] == RUNNING <==>
      && f.markRunning.Fine? && !(f.train == Returns(false) && f.markSucceeded.Fine?)
      && (f.markFailed.Breaks?
          || (!f.firstRollback && (f.train.aborts || (f.train.Returns? && f.markSucceeded == Breaks(true)))))
    ensures forall other :: other in old(store.jobs) && other != job ==>
      other in store.jobs && store.jobs[other] == old(store.jobs)[other]
    ensures family in old(store.locks) && old(store.locks)[family] == job ==>
      (family !in store.locks <==>
         && f.release.Fine? && f.markRunning != Breaks(true)
         && (f.markRunning.Breaks? || (f.train == Returns(false) && f.markSucceeded.Fine?) || f.secondRollback
             || (f.markFailed != Breaks(true)
                 && (f.firstRollback || !(f.train.aborts || (f.train.Returns? && f.markSucceeded == Breaks(true)))))))
    ensures forall t :: t != family ==> (t in store.locks <==> t in old(store.locks))
                                        && (t in store.locks ==> store.locks[t] == old(store.locks)[t])
  {
    var db := new Session(store);
    var running := db.MoveJob(job, RUNNING, f.markRunning);
    if running {
      db.aborted := f.train.aborts;
      var succeeded := false;
      if f.train.Returns? {
        succeeded := db.MoveJob(job, SUCCEEDED, f.markSucceeded);
      }
      if !succeeded {
        FailJobSafely(db, job, f);
      }
    }
    ReleaseLockSafely(db, family, job, f);
    escaped := !running;
  }

  /** The job a run leaves behind.  It is stuck RUNNING only if the failure could not be recorded. */
  function FinalStatus(f: Faults): JobStatus {
    if f.markRunning.Breaks? then PENDING
    else if !Trouble(f) then SUCCEEDED
    else if f.markFailed.Fine? && (f.firstRollback || !Poisoned(f)) then FAILED
    else RUNNING
  }

  /** The run gives its lock back unless the release itself breaks or meets an aborted session. */
  predicate Releases(f: Faults) {
    && f.release.Fine?
    && (f.markRunning.Breaks? ==> !f.markRunning.aborts)
    && (f.markRunning.Fine? && Trouble(f) && !f.secondRollback ==>
          (f.firstRollback || !Poisoned(f)) && f.markFailed != Breaks(true))
  }
}
