/**
 The opt-in retraining of the demo script and its compensating rollback
 (`train_and_verify` and `_rollback` in scripts/prepare_demo.py), run against a server nobody
 else is using.

 The training run goes on while the script polls: how many of its file actions have happened when
 an answer arrives does not show in the answer, unless the answer is SUCCEEDED.
 */
module PrepareDemo {
  import opened Basics
  import opened Artifacts

  const EXPECTED_MODEL := "LogisticRegression"
  const EXPECTED_FAMILY := "classifier"

  /** The result a job reports when it succeeds: which model won. */
  datatype Result = Result(selected: string, family: string, eligible: bool)

  predicate Expected(r: Result) {
    r.selected == EXPECTED_MODEL && r.family == EXPECTED_FAMILY && r.eligible
  }

  /** `Unreadable` is an HTTP error or no answer at all. */
  datatype Answer = Unreadable | StillRunning | JobFailed | JobSucceeded

  /** An answer, and the file actions of the training run since the one before. */
  datatype Poll = Poll(actions: nat, answer: Answer)

  /** What one rollback request meets: whether the lock statement works, the smoke test of the
      previous artifact, the file actions that happen before one raises, whether the release
      statement works, and whether the script gets to see the reply. */
  datatype Conditions = Conditions(acquire: bool, smoke: bool, budget: nat, release: bool, answered: bool)

  /** Everything one call of the script meets: whether the train request's lock statement works and
      whether its reply arrives, the answers that arrive before the deadline, the file actions
      between the last of them and the script's exit, what the job reports when it succeeds, whether
      the training run has released its lock when the rollback request arrives, and that request. */
  datatype Call = Call(works: bool, answered: bool, polls: seq<Poll>, late: nat, result: Result, released: bool,
                       rollback: Conditions)

  datatype Outcome =
    | NotAccepted
    | Unanswered
    | PollFailed
    | TimedOut
    | TrainingFailed
    | Mismatch(rollbackStatus: nat)
    | MismatchUnanswered
    | Verified(result: Result)

  // ----- what one call comes to -----

  /** The first answer that ends the polling; the number of answers if none does. */
  function Landing(polls: seq<Poll>): (n: nat)
    ensures n <= |polls| && AllRunning(polls, n)
    ensures n < |polls| ==> !polls[n].answer.StillRunning?
  {
    if polls == [] || !polls[0].answer.StillRunning? then 0 else 1 + Landing(polls[1..])
  }

  predicate AllRunning(polls: seq<Poll>, n: nat)
    requires n <= |polls|
  {
    forall i :: 0 <= i < n ==> polls[i].answer.StillRunning?
  }

  /** The file actions up to and including answer `n - 1`. */
  function ActionsBy(polls: seq<Poll>, n: nat): nat
    requires n <= |polls|
  {
    if n == 0 then 0 else ActionsBy(polls, n - 1) + polls[n - 1].actions
  }

  /** The training run's file actions when the script is done with it, unless the job succeeded. */
  function ActionsSeen(k: Call, accepted: bool): nat {
    if !accepted then 0
    else if !k.answered then k.late
    else
      var n := Landing(k.polls);
      if n == |k.polls| then ActionsBy(k.polls, n) + k.late else ActionsBy(k.polls, n + 1)
  }

  predicate Succeeds(k: Call, accepted: bool) {
    var n := Landing(k.polls);
    accepted && k.answered && n < |k.polls| && k.polls[n].answer.JobSucceeded?
  }

  function ExitOf(k: Call, accepted: bool, before: Files): Outcome {
    var n := Landing(k.polls);
    if !k.answered then Unanswered
    else if !accepted then NotAccepted
    else if n == |k.polls| then TimedOut
    else
      match k.polls[n].answer
      case JobFailed => TrainingFailed
      case JobSucceeded =>
        if Expected(k.result) then Verified(k.result)
        else if k.rollback.answered then Mismatch(RollbackReply(k.released, Restorable(before), k.rollback))
        else MismatchUnanswered
      case _ => PollFailed
  }

  function FilesAtExit(k: Call, accepted: bool, before: Files, artifact: ArtifactId): Files {
    if !Succeeds(k, accepted) then Stopped(Training, artifact, before, ActionsSeen(k, accepted))
    else
      var promoted := Finished(Training, artifact, before);
      if Expected(k.result) then promoted
      else Stopped(Rollback, 0, promoted, RollbackActions(k.released, Restorable(before), k.rollback))
  }

  /** The status of a rollback request. */
  function RollbackReply(free: bool, previous: Status, c: Conditions): nat {
    if !c.acquire then 500
    else if !free then 409
    else if !c.release then 500
    else if previous.Missing? then 404
    else if previous.Corrupted? || !c.smoke then 409
    else if c.budget < 4 then 500 else 200
  }

  datatype Holder = TheTraining | TheRollback | Leaked

  /** The artifact that a rollback right after a promotion from `f` restores. */
  function Restorable(f: Files): Status {
    if Active(f) != Missing then Active(f) else Previous(f)
  }

  /** How many file actions a rollback request performs. */
  function RollbackActions(free: bool, previous: Status, c: Conditions): nat {
    if free && c.acquire && previous.Ready? && c.smoke then (if c.budget < 4 then c.budget else 4) else 0
  }

  class Server {
    const directory: Directory
    var lock: Option<Holder>
    var base: Files             // the files when the training run started
    var candidate: ArtifactId
    var performed: nat          // its file actions so far

    constructor (directory: Directory, lock: Option<Holder>)
      ensures this.directory == directory && this.lock == lock
    {
      this.directory, this.lock, base, candidate, performed := directory, lock, directory.files, 0, 0;
    }

    predicate InTraining()
      reads this, directory
    {
      directory.files == Stopped(Training, candidate, base, performed)
    }

    /** POST /model/train. */
    method StartTraining(artifact: ArtifactId, works: bool) returns (status: nat)
      modifies this
      ensures InTraining() && candidate == artifact && base == directory.files && performed == 0
      ensures status == 202 <==> works && old(lock).None?
      ensures lock == if status == 202 then Some(TheTraining) else old(lock)
    {
      base, candidate, performed := directory.files, artifact, 0;
      if lock.Some? { return 409; }
      if !works { return 500; }
      lock := Some(TheTraining);
      return 202;
    }

    /** The training run performs some more of its program; all of it if it succeeds. */
    method Proceed(actions: nat, succeeds: bool)
      requires InTraining()
      modifies this`performed, directory
      ensures InTraining()
      ensures performed == old(performed) + actions + if succeeds then |Program(Training, candidate, base)| else 0
    {
      var all := |Program(Training, candidate, base)|;
      performed := performed + actions + if succeeds then all else 0;
      directory.files := Stopped(Training, candidate, base, performed);
    }

    /** POST /model/rollback.  Only a reply of 200, 404 or 409 tells what became of the files: with
        500 any part of the rollback may have happened, all of it included, and the lock may be
        left behind. */
    method RollBack(c: Conditions) returns (status: nat)
      modifies this`lock, directory
      ensures directory.files ==
        Stopped(Rollback, 0, old(directory.files), RollbackActions(old(lock).None?, Previous(old(directory.files)), c))
      ensures status == 200 ==> Active(directory.files) == Previous(old(directory.files))
                                && Previous(directory.files) == Missing && lock == None
      ensures status in {404, 409} ==> directory.files == old(directory.files)
      ensures status == 404 ==> Previous(directory.files) == Missing
      ensures status == RollbackReply(old(lock).None?, Previous(old(directory.files)), c)
      ensures var model, meta := old(directory.files.previousModel), old(directory.files.previousMeta);
        && (status == 404 <==> c.acquire && old(lock).None? && c.release && (model.None? || meta.None?))
        && (status == 409 <==>
              c.acquire && (old(lock).Some? || (c.release && model.Some? && meta.Some? && !(model == meta && c.smoke))))
      ensures status in {200, 404, 409, 500}
      ensures status == 200 <==> old(lock).None? && c.acquire && Previous(old(directory.files)).Ready?
                                 && c.smoke && c.budget >= 4 && c.release
      ensures lock.Some? <==> old(lock).Some? || (c.acquire && !c.release)
    {
      ghost var files := directory.files;
      assert Stopped(Rollback, 0, files, 0) == files by { StoppedAtOnce(0, files); }
      if !c.acquire { return 500; }
      if lock.Some? { return 409; }
      lock := Some(TheRollback);
      var done := directory.Rollback(c.smoke, c.budget);
      if Previous(files).Ready? { RollbackIs(files, c.budget); }
      if !c.release { return 500; }
      lock := None;
      match done
      case NotFound => return 404;
      case ValidationFailed => return 409;
      case Interrupted => return 500;
      case Completed(_) => return 200;
    }
  }

  lemma StoppedAtOnce(c: ArtifactId, f: Files)
    ensures Stopped(Rollback, c, f, 0) == f
  {
  }

  lemma RollbackIs(f: Files, budget: nat)
    requires Previous(f).Ready?
    ensures var p, n := RollbackProgram(Previous(f).id), if budget < 4 then budget else 4;
      Stopped(Rollback, 0, f, n) == Play(f, p[..n]) && p[..4] == p
    ensures var g := Stopped(Rollback, 0, f, if budget < 4 then budget else 4);
      budget >= 4 ==> Active(g) == Previous(f) && Previous(g) == Missing
  {
    RollbackStopped(0, f, if budget < 4 then budget else 4);
    WholePrefix(RollbackProgram(Previous(f).id));
  }

  /** A rollback after a finished promotion of `c`, wherever the rollback stops. */
  lemma RollbackAfterPromotion(c: ArtifactId, f: Files, n: nat)
    ensures var g := Finished(Training, c, f);
      Active(g) == Ready(c) && Previous(g) == Restorable(f)
    ensures Restorable(f).Ready? ==>
      var h := Stopped(Rollback, 0, Finished(Training, c, f), n);
      && (Active(h) == Active(f) <==> Active(f) == Ready(c) || (Active(f).Ready? && n >= 3))
      && (Active(h) == Ready(c) <==> n < 2 || Restorable(f) == Ready(c))
  {
    PromotionFinished(c, f);
    if Restorable(f).Ready? {
      RollbackStopped(0, Finished(Training, c, f), n);
    }
  }

  /** Trains, polls until the deadline, and asks for a rollback before it raises if the wrong model
      won.  The exit and the files are those of the plain account above. */
  method TrainAndVerify(server: Server, artifact: ArtifactId, k: Call) returns (outcome: Outcome)
    modifies server, server.directory
    ensures var accepted := k.works && old(server.lock).None?;
      && outcome == ExitOf(k, accepted, old(server.directory.files))
      && server.directory.files == FilesAtExit(k, accepted, old(server.directory.files), artifact)
    ensures outcome.Unanswered? <==> !k.answered
    ensures outcome.NotAccepted? <==> k.answered && !(k.works && old(server.lock).None?)
    ensures var asked, n := k.answered && k.works && old(server.lock).None?, Landing(k.polls);
      && (outcome.TimedOut? <==> asked && forall p :: p in k.polls ==> p.answer.StillRunning?)
      && (outcome.PollFailed? <==> asked && n < |k.polls| && k.polls[n].answer == Unreadable)
      && (outcome.TrainingFailed? <==> asked && n < |k.polls| && k.polls[n].answer == JobFailed)
      && (outcome.Verified? <==>
            && asked && n < |k.polls| && k.polls[n].answer == JobSucceeded
            && k.result.selected == "LogisticRegression" && k.result.family == "classifier" && k.result.eligible)
      && (outcome.Mismatch? || outcome.MismatchUnanswered? <==>
            && asked && n < |k.polls| && k.polls[n].answer == JobSucceeded
            && !(k.result.selected == "LogisticRegression" && k.result.family == "classifier" && k.result.eligible))
      && (outcome.MismatchUnanswered? ==> !k.rollback.answered) && (outcome.Mismatch? ==> k.rollback.answered)
  {
    outcome := Attempt(server, artifact, k);
    ExitSpelled(k, k.works && old(server.lock).None?, old(server.directory.files));
  }

  /** The steps of it. */
  method Attempt(server: Server, artifact: ArtifactId, k: Call) returns (outcome: Outcome)
    modifies server, server.directory
    ensures var accepted := k.works && old(server.lock).None?;
      && outcome == ExitOf(k, accepted, old(server.directory.files))
      && server.directory.files == FilesAtExit(k, accepted, old(server.directory.files), artifact)
  {
    ghost var before, accepted := server.directory.files, k.works && server.lock.None?;
    var status := server.StartTraining(artifact, k.works);
    if !k.answered {
      if status == 202 {
        server.Proceed(k.late, false);
      }
      return Unanswered;
    }
    if status != 202 { return NotAccepted; }
    var i := Await(server, k.polls);
    if i == |k.polls| {
      server.Proceed(k.late, false);
      return TimedOut;
    }
    var answer := k.polls[i].answer;
    server.Proceed(k.polls[i].actions, answer.JobSucceeded?);
    if answer.Unreadable? { return PollFailed; }
    if answer.JobFailed? { return TrainingFailed; }
    StoppedAtTheEnd(Training, artifact, before, server.performed);
    outcome := Conclude(server, artifact, k, before);
  }

  lemma ExitSpelled(k: Call, accepted: bool, before: Files)
    ensures var exit, asked, n := ExitOf(k, accepted, before), k.answered && accepted, Landing(k.polls);
      && (exit.TimedOut? <==> asked && forall p :: p in k.polls ==> p.answer.StillRunning?)
  {
    var n := Landing(k.polls);
    if n < |k.polls| {
      assert k.polls[n] in k.polls;
    } else {
      assert AllRunning(k.polls, |k.polls|);
    }
  }

  /** Polls until an answer is not StillRunning, or none comes before the deadline. */
  method Await(server: Server, polls: seq<Poll>) returns (n: nat)
    requires server.InTraining() && server.performed == 0
    modifies server`performed, server.directory
    ensures n == Landing(polls) && server.InTraining() && server.performed == ActionsBy(polls, n)
  {
    n := 0;
    while n < |polls| && polls[n].answer.StillRunning?
      invariant 0 <= n <= |polls| && AllRunning(polls, n)
      invariant server.InTraining() && server.performed == ActionsBy(polls, n)
    {
      server.Proceed(polls[n].actions, false);
      n := n + 1;
    }
    LandsThere(polls, n);
  }

  /** What the script does once the job has succeeded. */
  method Conclude(server: Server, artifact: ArtifactId, k: Call, ghost before: Files) returns (outcome: Outcome)
    requires server.directory.files == Finished(Training, artifact, before) && server.lock == Some(TheTraining)
    modifies server, server.directory
    ensures outcome ==
      if Expected(k.result) then Verified(k.result)
      else if k.rollback.answered then Mismatch(RollbackReply(k.released, Restorable(before), k.rollback))
      else MismatchUnanswered
    ensures server.directory.files ==
      if Expected(k.result) then Finished(Training, artifact, before)
      else Stopped(Rollback, 0, Finished(Training, artifact, before), RollbackActions(k.released, Restorable(before), k.rollback))
  {
    PromotionFinished(artifact, before);
    if Expected(k.result) { return Verified(k.result); }
    if k.released { server.lock := None; }
    var reply := server.RollBack(k.rollback);
    return if k.rollback.answered then Mismatch(reply) else MismatchUnanswered;
  }

  lemma LandsThere(polls: seq<Poll>, n: nat)
    requires n <= |polls| && AllRunning(polls, n)
    requires n < |polls| ==> !polls[n].answer.StillRunning?
    ensures Landing(polls) == n
  {
  }

  // ----- what the exit tells -----

  /** The rollback request gets through to at least `n` of its file actions. */
  predicate Reaches(k: Call, n: nat) {
    k.released && k.rollback.acquire && k.rollback.smoke && k.rollback.budget >= n
  }

  /** Where a call leaves the artifact live that its own training run promoted. */
  predicate EndsLive(k: Call, accepted: bool, before: Files, artifact: ArtifactId) {
    if !Succeeds(k, accepted) then GoesLive(artifact, before, ActionsSeen(k, accepted))
    else Expected(k.result) || Restorable(before) == Ready(artifact) || !(Restorable(before).Ready? && Reaches(k, 2))
  }

  /** Where a call leaves active what was active before it. */
  predicate EndsAsBefore(k: Call, accepted: bool, before: Files, artifact: ArtifactId) {
    if !Succeeds(k, accepted) then LeavesActive(artifact, before, ActionsSeen(k, accepted))
    else Active(before) == Ready(artifact) || (!Expected(k.result) && Active(before).Ready? && Reaches(k, 3))
  }

  /** For every call: exactly when the new artifact is live at the exit, and exactly when the one
      active before still is. */
  lemma WhatIsActiveAtExit(k: Call, accepted: bool, before: Files, artifact: ArtifactId)
    ensures var now := Active(FilesAtExit(k, accepted, before, artifact));
      && (now == Ready(artifact) <==> EndsLive(k, accepted, before, artifact))
      && (now == Active(before) <==> EndsAsBefore(k, accepted, before, artifact))
  {
    StoppedPromotionServes(artifact, before, ActionsSeen(k, accepted));
    var n := RollbackActions(k.released, Restorable(before), k.rollback);
    RollbackAfterPromotion(artifact, before, n);
    StoppedAtOnce(0, Finished(Training, artifact, before));
  }

  /** The one exit that vouches for what is active, and what the replies to a mismatch are worth: 200
      means the old artifact is back if there was one, 404 and 409 that the new one stayed. */
  lemma WhatTheExitTells(k: Call, accepted: bool, before: Files, artifact: ArtifactId)
    ensures var exit, now := ExitOf(k, accepted, before), Active(FilesAtExit(k, accepted, before, artifact));
      && (exit.Verified? ==> Expected(exit.result) && now == Ready(artifact))
      && (exit.Mismatch? && exit.rollbackStatus == 200 ==> now == Restorable(before))
      && (exit.Mismatch? && exit.rollbackStatus in {404, 409} ==> now == Ready(artifact))
      && (exit.NotAccepted? ==> FilesAtExit(k, accepted, before, artifact) == before)
  {
    WhatIsActiveAtExit(k, accepted, before, artifact);
    RollbackAfterPromotion(artifact, before, 4);
    StoppedAtOnce(0, Finished(Training, artifact, before));
    var promoted := Finished(Training, artifact, before);
    if Restorable(before).Ready? { RollbackStopped(0, promoted, 4); }
    NothingDone(artifact, before);
  }

  lemma NothingDone(c: ArtifactId, f: Files)
    ensures Stopped(Training, c, f, 0) == f
  {
  }

  /** The script promises that a bad promotion never survives its own exit.  Over an active pair, each
      way of giving up on the answers leaves the new artifact live as soon as the training run has
      come to its seventh file action, and tells nothing of it. */
  lemma GivingUpLeavesItLive(before: Files, artifact: ArtifactId, polled: nat, late: nat, result: Result, rollback: Conditions)
    requires Active(before) != Missing && polled + late >= 7
    ensures var deadline := Call(true, true, [Poll(polled, StillRunning)], late, result, true, rollback);
      ExitOf(deadline, true, before) == TimedOut
      && Active(FilesAtExit(deadline, true, before, artifact)) == Ready(artifact)
    ensures var unreadable := Call(true, true, [Poll(polled + late, Unreadable)], 0, result, true, rollback);
      ExitOf(unreadable, true, before) == PollFailed
      && Active(FilesAtExit(unreadable, true, before, artifact)) == Ready(artifact)
    ensures var failed := Call(true, true, [Poll(polled + late, JobFailed)], 0, result, true, rollback);
      ExitOf(failed, true, before) == TrainingFailed
      && Active(FilesAtExit(failed, true, before, artifact)) == Ready(artifact)
    ensures var lost := Call(true, false, [], polled + late, result, true, rollback);
      ExitOf(lost, true, before) == Unanswered
      && Active(FilesAtExit(lost, true, before, artifact)) == Ready(artifact)
  {
    StoppedPromotionServes(artifact, before, polled + late);
    OneAnswer(polled, StillRunning);
    OneAnswer(polled + late, Unreadable);
    OneAnswer(polled + late, JobFailed);
  }

  lemma OneAnswer(actions: nat, answer: Answer)
    ensures ActionsBy([Poll(actions, answer)], 1) == actions
    ensures Landing([Poll(actions, answer)]) == if answer.StillRunning? then 1 else 0
  {
    assert [Poll(actions, answer)][1..] == [];
  }
}
