/**
 Serializability of the artifact files, and what can ever be served.

 While no live lock is reclaimed, every interleaving of file actions leaves the files of a model
 family as if its operations had run one after the other, in the order they held the lock, each
 stopped after some prefix of its own program.  Whatever happens, only a validated artifact can
 be served.
 */
module TrainingSerial {
  import opened Basics
  import opened Artifacts
  import opened TrainingProtocol

  /** The operations of a history, run alone one after the other. */
  function Replay(base: Files, h: seq<Record>): Files {
    if h == [] then base
    else
      var last := h[|h| - 1];
      Stopped(last.kind, last.artifact, Replay(base, h[..|h| - 1]), last.performed)
  }

  function RecordOf(op: Op): Record {
    Record(op.kind, op.artifact, op.performed)
  }

  lemma ReplayAppend(base: Files, h: seq<Record>, r: Record)
    ensures Replay(base, h + [r]) == Stopped(r.kind, r.artifact, Replay(base, h), r.performed)
  {
    assert (h + [r])[..|h|] == h;
  }

  function ProgramOf(op: Op): seq<FileAction> {
    Program(op.kind, op.artifact, op.entry)
  }

  /** What is left to do is the rest of the program the operation would follow alone. */
  ghost predicate OnPlan(op: Op) {
    && op.performed <= |ProgramOf(op)|
    && match op.phase
       case Entered => op.performed == 0
       case Filing(todo, validated) =>
         if op.kind.Training? && !validated then
           op.performed <= 2 && todo == SaveProgram(op.artifact)[op.performed..]
         else
           validated && todo == ProgramOf(op)[op.performed..] && (op.kind.Training? ==> op.performed >= 2)
       case Filed(ok) => ok ==> op.performed == |ProgramOf(op)|
       case _ => true
  }

  ghost predicate SerialOp(base: Files, s: State, op: Op) {
    && OnPlan(op)
    && op.entry == Replay(base, s.history.At(op.family))
    && s.files.At(op.family) == Play(op.entry, ProgramOf(op)[..op.performed])
  }

  ghost predicate Idle(s: State, t: ModelType) {
    forall o | o in s.ops && s.ops[o].family == t :: !Critical(s.ops[o])
  }

  ghost predicate Serial(base: PerType<Files>, s: State, t: ModelType) {
    && (forall o | o in s.ops && s.ops[o].family == t && Critical(s.ops[o]) :: SerialOp(base.At(t), s, s.ops[o]))
    && (Idle(s, t) ==> s.files.At(t) == Replay(base.At(t), s.history.At(t)))
  }

  /** Saving the candidate leaves the decision to retire the active pair as it was. */
  lemma SavedCandidate(f: Files, c: ArtifactId)
    ensures var g := Play(f, SaveProgram(c));
      Candidate(g) == Ready(c) && PromoteProgram(g, c) == PromoteProgram(f, c)
    ensures Program(Training, c, f)[..2] == SaveProgram(c)
    ensures Program(Training, c, f)[2..] == PromoteProgram(f, c)
  {
    Unfold(f, SaveProgram(c));
  }

  lemma ValidateStaysOnPlan(base: Files, s: State, o: OpId, smoke: bool)
    requires Enabled(s, Validate(o, smoke)) && SerialOp(base, s, s.ops[o])
    ensures var n := Next(s, Validate(o, smoke)); SerialOp(base, n, n.ops[o])
  {
    var op := s.ops[o];
    SavedCandidate(op.entry, op.artifact);
    if op.kind.Rollback? {
      assert ProgramOf(op)[..0] == [];
    } else {
      assert SaveProgram(op.artifact)[op.performed..] == [];
      assert op.performed == 2;
    }
  }

  /** The next action on the list is the next action of the program. */
  lemma NextOnPlan(op: Op)
    requires OnPlan(op) && op.phase.Filing? && op.phase.todo != []
    ensures op.performed < |ProgramOf(op)| && op.phase.todo[0] == ProgramOf(op)[op.performed]
    ensures OnPlan(op.(performed := op.performed + 1, phase := Filing(op.phase.todo[1..], op.phase.validated)))
  {
    SavedCandidate(op.entry, op.artifact);
    if op.kind.Training? && !op.phase.validated {
      assert op.phase.todo[0] == SaveProgram(op.artifact)[op.performed] == ProgramOf(op)[..2][op.performed];
    }
  }

  lemma ActStaysOnPlan(base: Files, s: State, o: OpId)
    requires Enabled(s, Act(o)) && SerialOp(base, s, s.ops[o])
    ensures var n := Next(s, Act(o)); SerialOp(base, n, n.ops[o])
  {
    var op := s.ops[o];
    NextOnPlan(op);
    PlayStep(op.entry, ProgramOf(op), op.performed);
    var n := Next(s, Act(o));
    if Possible(s.files.At(op.family), op.phase.todo[0]) {
      assert n.ops[o].performed == op.performed + 1;
      assert n.files.At(op.family) == Play(op.entry, ProgramOf(op)[..op.performed + 1]);
    } else {
      assert n.ops[o].performed == op.performed;
    }
    assert ProgramOf(n.ops[o]) == ProgramOf(op);
    assert OnPlan(n.ops[o]);
  }

  /** Where an action leads: an operation whose file cannot be moved has failed, one that has done its
      whole program goes on to report it or to release, and any other goes on with the rest. */
  lemma ActLeadsOn(s: State, o: OpId)
    requires Enabled(s, Act(o)) && OnPlan(s.ops[o])
    ensures var n, op := Next(s, Act(o)), s.ops[o];
      && o in n.ops
      && (!Possible(s.files.At(op.family), ProgramOf(op)[op.performed]) ==>
            n.files == s.files && n.ops[o].phase == (if op.kind.Training? then Filed(false) else Leaving))
      && (Possible(s.files.At(op.family), ProgramOf(op)[op.performed]) ==>
            && n.ops[o].performed == op.performed + 1
            && (op.performed + 1 == |ProgramOf(op)| <==>
                  n.ops[o].phase == if op.kind.Training? then Filed(true) else Leaving)
            && (op.performed + 1 < |ProgramOf(op)| <==> n.ops[o].phase.Filing?))
  {
    NextOnPlan(s.ops[o]);
    SavedCandidate(s.ops[o].entry, s.ops[o].artifact);
  }

  /** An operation that leaves its critical section leaves the effect of its prefix behind. */
  lemma DropIsRecorded(base: PerType<Files>, s: State, o: OpId)
    requires o in s.ops && Critical(s.ops[o]) && Exclusive(s)
    requires Serial(base, s, s.ops[o].family)
    ensures Serial(base, Drop(s, o), s.ops[o].family)
  {
    var op := s.ops[o];
    ReplayAppend(base.At(op.family), s.history.At(op.family), RecordOf(op));
    assert Idle(Drop(s, o), op.family);
  }

  lemma SerialStep(base: PerType<Files>, s: State, step: Step, t: ModelType)
    requires Held(s) && Enabled(s, step) && Held(Next(s, step)) && Serial(base, s, t)
    requires s.nextId !in s.ops
    ensures Serial(base, Next(s, step), t)
  {
    if step.Tick? || step.Arrive? {
      SerialNobody(base, s, step, t);
    } else if s.ops[step.op].family != t {
      SerialOther(base, s, step, t);
    } else {
      SerialOwn(base, s, step);
    }
  }

  lemma SerialNobody(base: PerType<Files>, s: State, step: Step, t: ModelType)
    requires (step.Tick? || step.Arrive?) && Serial(base, s, t) && s.nextId !in s.ops
    ensures Serial(base, Next(s, step), t)
  {
    assert forall o | o in s.ops :: o in Next(s, step).ops && Next(s, step).ops[o] == s.ops[o];
    SerialSame(base, s, Next(s, step), t);
  }

  lemma SerialOther(base: PerType<Files>, s: State, step: Step, t: ModelType)
    requires !step.Tick? && !step.Arrive? && Enabled(s, step) && s.ops[step.op].family != t && Serial(base, s, t)
    ensures Serial(base, Next(s, step), t)
  {
    SerialElsewhere(base, s, Next(s, step), step.op, t);
  }

  /** Nothing in the critical section came or went and nothing there changed. */
  lemma SerialSame(base: PerType<Files>, s: State, n: State, t: ModelType)
    requires Serial(base, s, t)
    requires n.files.At(t) == s.files.At(t) && n.history.At(t) == s.history.At(t)
    requires forall o | o in n.ops && n.ops[o].family == t && Critical(n.ops[o]) :: o in s.ops && s.ops[o] == n.ops[o]
    requires forall o | o in s.ops && s.ops[o].family == t && Critical(s.ops[o]) :: o in n.ops && s.ops[o] == n.ops[o]
    ensures Serial(base, n, t)
  {
    assert Idle(n, t) ==> Idle(s, t);
  }

  lemma SerialElsewhere(base: PerType<Files>, s: State, n: State, o: OpId, t: ModelType)
    requires Serial(base, s, t) && o in s.ops && s.ops[o].family != t
    requires n.files.At(t) == s.files.At(t) && n.history.At(t) == s.history.At(t)
    requires forall p | p in s.ops && p != o :: p in n.ops && n.ops[p] == s.ops[p]
    requires forall p | p in n.ops && p != o :: p in s.ops
    requires o in n.ops ==> n.ops[o].family != t
    ensures Serial(base, n, t)
  {
    SerialSame(base, s, n, t);
  }

  lemma SerialOwn(base: PerType<Files>, s: State, step: Step)
    requires !step.Tick? && !step.Arrive? && Enabled(s, step)
    requires Held(s) && Held(Next(s, step)) && Serial(base, s, s.ops[step.op].family)
    ensures Serial(base, Next(s, step), s.ops[step.op].family)
  {
    if step.Look? || step.TurnAway? {
      SerialSame(base, s, Next(s, step), s.ops[step.op].family);
    } else if step.Claim? {
      SerialClaim(base, s, step.op);
    } else if step.Vanish? || step.Release? {
      SerialExit(base, s, step);
    } else {
      SerialInside(base, s, step);
    }
  }

  lemma SerialExit(base: PerType<Files>, s: State, step: Step)
    requires (step.Vanish? || step.Release?) && Enabled(s, step)
    requires Held(s) && Serial(base, s, s.ops[step.op].family)
    ensures Serial(base, Next(s, step), s.ops[step.op].family)
  {
    var n, t := Next(s, step), s.ops[step.op].family;
    if Critical(s.ops[step.op]) {
      DropIsRecorded(base, s, step.op);
      SerialSame(base, Drop(s, step.op), n, t);
    } else {
      SerialSame(base, s, n, t);
    }
  }

  lemma QuietStaysOnPlan(base: Files, s: State, step: Step)
    requires (step.Begin? || step.Mark? || step.Raise? || step.ReadLock?) && Enabled(s, step) && SerialOp(base, s, s.ops[step.op])
    ensures var n := Next(s, step); SerialOp(base, n, n.ops[step.op])
  {
    var op := s.ops[step.op];
    assert SaveProgram(op.artifact)[0..] == SaveProgram(op.artifact);
    assert ProgramOf(Next(s, step).ops[step.op]) == ProgramOf(op);
  }

  predicate WorksInside(step: Step) {
    step.Begin? || step.Validate? || step.Act? || step.Mark? || step.Raise? || step.ReadLock?
  }

  lemma StaysInside(s: State, step: Step)
    requires WorksInside(step) && Enabled(s, step)
    ensures var n, o := Next(s, step), step.op; o in n.ops && Critical(n.ops[o]) && n.ops[o].family == s.ops[o].family
  {
  }

  lemma StaysOnPlan(base: Files, s: State, step: Step)
    requires WorksInside(step) && Enabled(s, step) && SerialOp(base, s, s.ops[step.op])
    ensures step.op in Next(s, step).ops && SerialOp(base, Next(s, step), Next(s, step).ops[step.op])
  {
    match step
    case Validate(o, smoke) => ValidateStaysOnPlan(base, s, o, smoke);
    case Act(o) => ActStaysOnPlan(base, s, o);
    case _ => QuietStaysOnPlan(base, s, step);
  }

  lemma SerialInside(base: PerType<Files>, s: State, step: Step)
    requires WorksInside(step) && Enabled(s, step)
    requires Held(Next(s, step)) && SerialOp(base.At(s.ops[step.op].family), s, s.ops[step.op])
    ensures Serial(base, Next(s, step), s.ops[step.op].family)
  {
    StaysInside(s, step);
    StaysOnPlan(base.At(s.ops[step.op].family), s, step);
    OnlyCritical(base, Next(s, step), step.op);
  }

  lemma SerialClaim(base: PerType<Files>, s: State, o: OpId)
    requires Enabled(s, Claim(o)) && Held(s) && Held(Next(s, Claim(o)))
    requires Serial(base, s, s.ops[o].family)
    ensures Serial(base, Next(s, Claim(o)), s.ops[o].family)
  {
    var n, t := Next(s, Claim(o)), s.ops[o].family;
    if Acquires(s, o) {
      forall p | p in s.ops && p != o && s.ops[p].family == t ensures !Critical(s.ops[p]) {
        assert n.ops[p] == s.ops[p];
      }
      assert ProgramOf(n.ops[o])[..0] == [];
      OnlyCritical(base, n, o);
    } else {
      SerialSame(base, s, n, t);
    }
  }

  /** With one operation in the critical section, its own account is the whole story. */
  lemma OnlyCritical(base: PerType<Files>, n: State, o: OpId)
    requires Held(n) && o in n.ops && Critical(n.ops[o]) && SerialOp(base.At(n.ops[o].family), n, n.ops[o])
    ensures Serial(base, n, n.ops[o].family)
  {
  }

  lemma SerialNext(states: seq<State>, steps: seq<Step>, n: nat, t: ModelType)
    requires IsRun(states, steps) && NoLiveReclaim(states, steps) && n < |steps|
    requires Serial(states[0].files, states[n], t)
    ensures Serial(states[0].files, states[n + 1], t)
  {
    HeldThroughout(states, steps, n);
    HeldThroughout(states, steps, n + 1);
    FreshIds(states, steps, n);
    assert states[n + 1] == Next(states[n], steps[n]);
    SerialStep(states[0].files, states[n], steps[n], t);
  }

  lemma {:induction false} SerialThroughout(states: seq<State>, steps: seq<Step>, n: nat, t: ModelType)
    requires IsRun(states, steps) && NoLiveReclaim(states, steps) && n < |states|
    ensures Serial(states[0].files, states[n], t)
  {
    if n > 0 {
      SerialThroughout(states, steps, n - 1, t);
      SerialNext(states, steps, n - 1, t);
    } else {
      assert Idle(states[0], t);
    }
  }

  /** Serializability: at every point of a run in which no live lock is reclaimed, a family's
      files are the serial replay of the operations that have left, followed by what the one
      operation in flight (if any) has performed. */
  lemma FilesAreSerial(states: seq<State>, steps: seq<Step>, n: nat, t: ModelType)
    requires IsRun(states, steps) && NoLiveReclaim(states, steps) && n < |states|
    ensures var s := states[n];
      var base := states[0].files.At(t);
      && (Idle(s, t) ==> s.files.At(t) == Replay(base, s.history.At(t)))
      && (forall o | o in s.ops && s.ops[o].family == t && Critical(s.ops[o]) ::
            s.files.At(t) == Replay(base, s.history.At(t) + [RecordOf(s.ops[o])]))
  {
    SerialThroughout(states, steps, n, t);
    var s := states[n];
    forall o | o in s.ops && s.ops[o].family == t && Critical(s.ops[o])
      ensures s.files.At(t) == Replay(states[0].files.At(t), s.history.At(t) + [RecordOf(s.ops[o])])
    {
      ReplayAppend(states[0].files.At(t), s.history.At(t), RecordOf(s.ops[o]));
    }
  }

  /** Every operation on record performed its whole program. */
  predicate Completed(base: Files, h: seq<Record>) {
    h == []
    || var before, last := h[..|h| - 1], h[|h| - 1];
       Completed(base, before) && last.performed >= |Program(last.kind, last.artifact, Replay(base, before))|
  }

  function Operations(h: seq<Record>): seq<Operation> {
    if h == [] then []
    else Operations(h[..|h| - 1]) + [Operation(h[|h| - 1].kind, h[|h| - 1].artifact)]
  }

  lemma {:induction false} ReplayOfCompleted(base: Files, h: seq<Record>)
    requires base == NO_FILES && Completed(base, h)
    ensures Replay(base, h) == AfterAll(Operations(h))
  {
    if h != [] {
      var before, last := h[..|h| - 1], h[|h| - 1];
      ReplayOfCompleted(base, before);
      StoppedAtTheEnd(last.kind, last.artifact, Replay(base, before), last.performed);
      AfterAllAppend(Operations(before), Operation(last.kind, last.artifact));
    }
  }

  /** In a run from an empty directory whose operations all complete, an idle family has a rollback
      target exactly when the last operation to leave was a promotion and not the first. */
  lemma RollbackTargetInRuns(states: seq<State>, steps: seq<Step>, n: nat, t: ModelType)
    requires IsRun(states, steps) && NoLiveReclaim(states, steps) && n < |states|
    requires states[0].files.At(t) == NO_FILES
    requires Idle(states[n], t) && Completed(NO_FILES, states[n].history.At(t))
    ensures var ops := Operations(states[n].history.At(t));
      && (Previous(states[n].files.At(t)).Ready? <==> Promotions(ops) > 1 && ops[|ops| - 1].kind.Training?)
      && (Active(states[n].files.At(t)).Ready? <==> Promotions(ops) > 0)
  {
    FilesAreSerial(states, steps, n, t);
    ReplayOfCompleted(NO_FILES, states[n].history.At(t));
    RollbackTarget(Operations(states[n].history.At(t)));
  }

  // ----- what can be served, live reclaims included -----

  predicate PlanVetted(phase: Phase, vetted: set<ArtifactId>) {
    phase.Filing? ==> forall a | a in phase.todo && a.StageMeta? :: a.id in vetted
  }

  /** Every metadata file that could reach the active slot, and every one about to be staged,
      names an artifact that passed validation. */
  ghost predicate Vetted(s: State) {
    && (forall t: ModelType :: Recorded(s.files.At(t)) <= s.validated)
    && (forall o | o in s.ops :: PlanVetted(s.ops[o].phase, s.validated))
  }

  lemma VettedAction(f: Files, a: FileAction, vetted: set<ArtifactId>)
    requires Recorded(f) <= vetted && (a.StageMeta? ==> a.id in vetted)
    ensures Recorded(Apply(f, a)) <= vetted
  {
  }

  lemma VettedAct(s: State, o: OpId)
    requires Vetted(s) && Enabled(s, Act(o))
    ensures Vetted(DoAct(s, o))
  {
    var op := s.ops[o];
    assert PlanVetted(op.phase, s.validated) && op.phase.todo[0] in op.phase.todo;
    VettedAction(s.files.At(op.family), op.phase.todo[0], s.validated);
    assert forall a | a in op.phase.todo[1..] :: a in op.phase.todo;
    var n := DoAct(s, o);
    assert PlanVetted(n.ops[o].phase, s.validated);
    forall t: ModelType ensures Recorded(n.files.At(t)) <= n.validated {
      if t != op.family { assert n.files.At(t) == s.files.At(t); }
    }
    assert forall p | p in n.ops && p != o :: n.ops[p] == s.ops[p];
  }

  lemma VettedValidate(s: State, o: OpId, smoke: bool)
    requires Vetted(s) && Enabled(s, Validate(o, smoke))
    ensures Vetted(DoValidate(s, o, smoke))
  {
    assert PlanVetted(DoValidate(s, o, smoke).ops[o].phase, DoValidate(s, o, smoke).validated);
  }

  lemma VettedStep(s: State, step: Step)
    requires Vetted(s) && Enabled(s, step)
    ensures Vetted(Next(s, step))
  {
    match step
    case Act(o) => VettedAct(s, o);
    case Validate(o, smoke) => VettedValidate(s, o, smoke);
    case _ =>
  }

  lemma {:induction false} VettedThroughout(states: seq<State>, steps: seq<Step>, n: nat)
    requires IsRun(states, steps) && n < |states|
    ensures Vetted(states[n])
  {
    if n > 0 {
      VettedThroughout(states, steps, n - 1);
      VettedStep(states[n - 1], steps[n - 1]);
    }
  }

  /** Fail closed: in every state of every run -- operations overlapping after a live reclaim,
      killed half way, or raising anywhere -- an active pair that loads is one artifact, and that
      artifact passed validation (or was recorded before the run began). */
  lemma OnlyValidatedIsServed(states: seq<State>, steps: seq<Step>, n: nat, t: ModelType)
    requires IsRun(states, steps) && n < |states|
    requires Active(states[n].files.At(t)).Ready?
    ensures Active(states[n].files.At(t)).id in states[n].validated
  {
    VettedThroughout(states, steps, n);
    assert Active(states[n].files.At(t)).id in Recorded(states[n].files.At(t));
  }
}
