/**
 Replicas that start together and migrate the schema under one session-level advisory lock before
 they serve (scripts/run_migrations.py; the revisions run in a single transaction, migrations/env.py).

 The upgrade has its own connection: the lock lives on another session, which can be lost while the
 upgrade goes on.  All replicas ship the same head revision.
 */
module Migrations {
  import opened Basics

  type Replica = nat

  datatype Phase =
    | Starting                          // waiting for the database to accept connections
    | Queued                            // blocked in pg_advisory_lock
    | Locked
    | Upgrading(base: nat, done: nat)   // an open transaction, from revision `base`, now at `done`
    | Upgraded                          // committed; the unlock is next
    | Serving
    | Exited

  /** `applied` is the list of revisions committed so far, oldest first. */
  datatype State = State(head: nat, rev: nat, lock: Option<Replica>, phases: seq<Phase>, applied: seq<nat>)

  datatype Step =
    | Connect(r: Replica)
    | Acquire(r: Replica)
    | Begin(r: Replica)
    | Apply(r: Replica)
    | Commit(r: Replica)
    | Unlock(r: Replica)
    | Fail(r: Replica)          // an exception anywhere, or the process killed: sessions end, exit code 1
    | LoseLockSession(r: Replica)

  predicate Inside(p: Phase) {
    p.Locked? || p.Upgrading? || p.Upgraded?
  }

  predicate Over(p: Phase) {
    p.Serving? || p.Exited?
  }

  predicate Enabled(s: State, step: Step) {
    && step.r < |s.phases|
    && var p := s.phases[step.r];
       match step
       case Connect(_) => p.Starting?
       case Acquire(_) => p.Queued? && s.lock == None
       case Begin(_) => p.Locked?
       case Apply(_) => p.Upgrading? && p.done < s.head
       case Commit(_) => p.Upgrading? && p.done == s.head
       case Unlock(r) => p.Upgraded? && s.lock == Some(r)
       case Fail(_) => !Over(p)
       case LoseLockSession(r) => Inside(p) && s.lock == Some(r)
  }

  function Range(lo: nat, hi: nat): seq<nat>
    decreases hi - lo
  {
    if lo >= hi then [] else [lo + 1] + Range(lo + 1, hi)
  }

  function Freed(s: State, r: Replica): State {
    if s.lock == Some(r) then s.(lock := None) else s
  }

  function Put(s: State, r: Replica, p: Phase): State
    requires r < |s.phases|
  {
    s.(phases := s.phases[r := p])
  }

  function Next(s: State, step: Step): State
    requires Enabled(s, step)
  {
    var r, p := step.r, s.phases[step.r];
    match step
    case Connect(_) => Put(s, r, Queued)
    case Acquire(_) => Put(s.(lock := Some(r)), r, Locked)
    case Begin(_) => Put(s, r, Upgrading(s.rev, s.rev))
    case Apply(_) => Put(s, r, Upgrading(p.base, p.done + 1))
    case Commit(_) => Put(s.(rev := s.head, applied := s.applied + Range(p.base, s.head)), r, Upgraded)
    case Unlock(_) => Put(s.(lock := None), r, Serving)
    case Fail(_) => Put(Freed(s, r), r, Exited)
    case LoseLockSession(_) => s.(lock := None)
  }

  ghost predicate Initial(s: State) {
    && s.rev <= s.head && s.lock == None && s.applied == Range(0, s.rev)
    && forall r | 0 <= r < |s.phases| :: s.phases[r].Starting?
  }

  ghost predicate IsRun(states: seq<State>, steps: seq<Step>) {
    && |states| == |steps| + 1
    && Initial(states[0])
    && forall i | 0 <= i < |steps| :: Enabled(states[i], steps[i]) && states[i + 1] == Next(states[i], steps[i])
  }

  ghost predicate KeepsLockSessions(steps: seq<Step>) {
    forall i | 0 <= i < |steps| :: !steps[i].LoseLockSession?
  }

  // ----- in every run -----

  /** The lock is never left with a replica that is out of the migration, and a replica past its
      commit finds the schema at head. */
  ghost predicate Sound(s: State) {
    && s.rev <= s.head
    && (s.lock.Some? ==> s.lock.value < |s.phases| && Inside(s.phases[s.lock.value]))
    && (forall r | 0 <= r < |s.phases| && s.phases[r].Upgrading? ::
          s.phases[r].base <= s.phases[r].done <= s.head && s.phases[r].base <= s.rev)
    && (forall r | 0 <= r < |s.phases| && (s.phases[r].Upgraded? || s.phases[r].Serving?) :: s.rev == s.head)
  }

  lemma {:induction false} AlwaysSound(states: seq<State>, steps: seq<Step>, n: nat)
    requires IsRun(states, steps) && n < |states|
    ensures Sound(states[n])
  {
    if n > 0 {
      AlwaysSound(states, steps, n - 1);
      assert states[n] == Next(states[n - 1], steps[n - 1]);
    }
  }

  /** A replica that serves finds the schema at head from then on; a replica that failed or crashed
      does not hold the lock; whatever is lost or killed on the way. */
  lemma ServingImpliesHead(states: seq<State>, steps: seq<Step>, m: nat, n: nat, r: Replica)
    requires IsRun(states, steps) && m <= n < |states| && r < |states[n].phases|
    ensures |states[m].phases| == |states[n].phases|
    ensures states[m].phases[r].Serving? ==> states[n].phases[r].Serving? && states[n].rev == states[n].head
    ensures Over(states[n].phases[r]) ==> states[n].lock != Some(r)
  {
    AlwaysSound(states, steps, n);
    OverStaysOver(states, steps, m, n);
  }

  lemma {:induction false} OverStaysOver(states: seq<State>, steps: seq<Step>, m: nat, n: nat)
    requires IsRun(states, steps) && m <= n < |states|
    ensures |states[m].phases| == |states[n].phases| && states[m].head == states[n].head
    ensures forall r | 0 <= r < |states[m].phases| && Over(states[m].phases[r]) ::
      states[n].phases[r] == states[m].phases[r]
    ensures states[m].rev <= states[n].rev
  {
    if m < n {
      OverStaysOver(states, steps, m, n - 1);
      AlwaysSound(states, steps, n - 1);
      assert states[n] == Next(states[n - 1], steps[n - 1]);
    }
  }

  // ----- in every run that keeps its lock sessions -----

  ghost predicate Exclusive(s: State) {
    forall a, b | 0 <= a < |s.phases| && 0 <= b < |s.phases| && Inside(s.phases[a]) && Inside(s.phases[b]) :: a == b
  }

  ghost predicate Guarded(s: State) {
    && (forall r | 0 <= r < |s.phases| && Inside(s.phases[r]) :: s.lock == Some(r))
    && (forall r | 0 <= r < |s.phases| && s.phases[r].Upgrading? :: s.phases[r].base == s.rev)
    && s.applied == Range(0, s.rev)
  }

  lemma {:induction false} RangeJoins(lo: nat, mid: nat, hi: nat)
    requires lo <= mid <= hi
    ensures Range(lo, mid) + Range(mid, hi) == Range(lo, hi)
    decreases mid - lo
  {
    if lo < mid {
      RangeJoins(lo + 1, mid, hi);
      assert [lo + 1] + Range(lo + 1, mid) + Range(mid, hi) == [lo + 1] + (Range(lo + 1, mid) + Range(mid, hi));
    } else {
      assert [] + Range(mid, hi) == Range(mid, hi);
    }
  }

  lemma {:induction false} RangeCounts(lo: nat, hi: nat)
    requires lo <= hi
    ensures |Range(lo, hi)| == hi - lo && forall i :: 0 <= i < |Range(lo, hi)| ==> Range(lo, hi)[i] == lo + i + 1
    decreases hi - lo
  {
    if lo < hi { RangeCounts(lo + 1, hi); }
  }

  lemma {:induction false} AlwaysGuarded(states: seq<State>, steps: seq<Step>, n: nat)
    requires IsRun(states, steps) && KeepsLockSessions(steps) && n < |states|
    ensures Guarded(states[n])
  {
    if n > 0 {
      AlwaysGuarded(states, steps, n - 1);
      AlwaysSound(states, steps, n - 1);
      RangeJoins(0, states[n - 1].rev, states[n - 1].head);
      assert states[n] == Next(states[n - 1], steps[n - 1]);
    }
  }

  /** At most one replica is between acquiring and releasing the lock, and the committed revisions
      are 1, 2, ... up to the current one: none skipped, none twice, none undone. */
  lemma MigratesOnceInOrder(states: seq<State>, steps: seq<Step>, n: nat)
    requires IsRun(states, steps) && KeepsLockSessions(steps) && n < |states|
    ensures Exclusive(states[n])
    ensures states[n].applied == Range(0, states[n].rev)
    ensures |states[n].applied| == states[n].rev && forall i :: 0 <= i < |states[n].applied| ==> states[n].applied[i] == i + 1
    ensures states[n].rev in {states[0].rev, states[0].head}
  {
    AlwaysGuarded(states, steps, n);
    NothingHalfDone(states, steps, n);
    RangeCounts(0, states[n].rev);
  }

  /** The upgrade is one transaction: the schema is where it started or at head, never in between. */
  lemma {:induction false} NothingHalfDone(states: seq<State>, steps: seq<Step>, n: nat)
    requires IsRun(states, steps) && n < |states|
    ensures states[n].rev in {states[0].rev, states[0].head} && states[n].head == states[0].head
  {
    if n > 0 {
      NothingHalfDone(states, steps, n - 1);
      assert states[n] == Next(states[n - 1], steps[n - 1]);
    }
  }

  // ----- who never serves -----

  lemma {:induction false} StaysExited(states: seq<State>, steps: seq<Step>, m: nat, n: nat, r: Replica)
    requires IsRun(states, steps) && m <= n < |states| && r < |states[m].phases| && states[m].phases[r].Exited?
    ensures r < |states[n].phases| && states[n].phases[r].Exited?
  {
    OverStaysOver(states, steps, m, n);
  }

  /** A replica that fails exits, at whatever point, committed or not, and never serves. */
  lemma FailureNeverServes(states: seq<State>, steps: seq<Step>, m: nat, n: nat, r: Replica)
    requires IsRun(states, steps) && m < n < |states| && steps[m] == Fail(r)
    ensures r < |states[n].phases| && states[n].phases[r].Exited?
    ensures states[m + 1].rev == states[m].rev && states[m + 1].lock != Some(r)
  {
    assert states[m + 1] == Next(states[m], steps[m]);
    StaysExited(states, steps, m + 1, n, r);
  }

  /** Replicas come to serve in one way: by unlocking, with the lock still theirs. */
  lemma ServingIsByUnlock(states: seq<State>, steps: seq<Step>, n: nat, r: Replica)
    requires IsRun(states, steps) && n < |steps| && r < |states[n].phases|
    requires !states[n].phases[r].Serving?
    ensures states[n + 1].phases[r].Serving? <==> steps[n] == Unlock(r)
    ensures steps[n] == Unlock(r) ==> states[n].lock == Some(r) && states[n + 1].lock == None && states[n].phases[r].Upgraded?
  {
    assert states[n + 1] == Next(states[n], steps[n]);
  }

  predicate Outside(s: State, r: Replica) {
    r < |s.phases| && s.lock != Some(r) && (Inside(s.phases[r]) || s.phases[r].Exited?)
  }

  /** A replica that lost its lock session never serves: its unlock raises, though its upgrade may have
      been committed. */
  lemma {:induction false} LostSessionNeverServes(states: seq<State>, steps: seq<Step>, m: nat, n: nat, r: Replica)
    requires IsRun(states, steps) && m < n < |states| && steps[m] == LoseLockSession(r)
    ensures Outside(states[n], r)
  {
    assert states[n] == Next(states[n - 1], steps[n - 1]);
    if n > m + 1 { LostSessionNeverServes(states, steps, m, n - 1, r); }
  }

  // ----- when sessions are lost -----

  /** A replica gets the lock while another one is still migrating. */
  ghost predicate Intrusion(s: State, step: Step) {
    step.Acquire? && Enabled(s, step) && exists r :: 0 <= r < |s.phases| && Inside(s.phases[r])
  }

  lemma ExclusiveStep(s: State, step: Step)
    requires Exclusive(s) && Enabled(s, step)
    ensures Exclusive(Next(s, step)) <==> !Intrusion(s, step)
  {
    if Intrusion(s, step) {
      var r :| 0 <= r < |s.phases| && Inside(s.phases[r]);
      var n := Next(s, step);
      assert n.phases[r] == s.phases[r] && Inside(n.phases[step.r]) && r != step.r;
    }
  }

  lemma {:induction false} ExclusiveThroughout(states: seq<State>, steps: seq<Step>, n: nat)
    requires IsRun(states, steps) && n < |states| && forall i | 0 <= i < n :: !Intrusion(states[i], steps[i])
    ensures Exclusive(states[n])
  {
    if n > 0 {
      ExclusiveThroughout(states, steps, n - 1);
      assert states[n] == Next(states[n - 1], steps[n - 1]);
      ExclusiveStep(states[n - 1], steps[n - 1]);
    }
  }

  /** At most one replica is between acquiring and releasing the lock in every state of a run,
      exactly when nobody in it acquires the lock while another replica is still inside. */
  lemma ExclusiveIffNoIntrusion(states: seq<State>, steps: seq<Step>)
    requires IsRun(states, steps)
    ensures (forall n | 0 <= n < |states| :: Exclusive(states[n]))
            <==> forall i | 0 <= i < |steps| :: !Intrusion(states[i], steps[i])
  {
    if forall i | 0 <= i < |steps| :: !Intrusion(states[i], steps[i]) {
      forall n | 0 <= n < |states| ensures Exclusive(states[n]) {
        ExclusiveThroughout(states, steps, n);
      }
    } else {
      var i :| 0 <= i < |steps| && Intrusion(states[i], steps[i]);
      assert states[i + 1] == Next(states[i], steps[i]);
      if Exclusive(states[i]) {
        ExclusiveStep(states[i], steps[i]);
      }
    }
  }

  /** A replica inside without the lock has lost its lock session. */
  lemma {:induction false} LockGoesOnlyWithItsSession(states: seq<State>, steps: seq<Step>, n: nat, r: Replica) returns (i: nat)
    requires IsRun(states, steps) && n < |states| && r < |states[n].phases|
    requires Inside(states[n].phases[r]) && states[n].lock != Some(r)
    ensures i < n && steps[i] == LoseLockSession(r)
  {
    if n > 0 {
      assert states[n] == Next(states[n - 1], steps[n - 1]);
      if steps[n - 1] == LoseLockSession(r) {
        i := n - 1;
      } else {
        i := LockGoesOnlyWithItsSession(states, steps, n - 1, r);
      }
    }
  }

  /** So every intrusion goes back to a lost session of the replica intruded on. */
  lemma IntrusionNeedsALoss(states: seq<State>, steps: seq<Step>, n: nat, r: Replica) returns (i: nat)
    requires IsRun(states, steps) && n < |steps| && steps[n].Acquire?
    requires r < |states[n].phases| && Inside(states[n].phases[r])
    ensures i < n && steps[i] == LoseLockSession(r)
  {
    i := LockGoesOnlyWithItsSession(states, steps, n, r);
  }

  lemma Extend(states: seq<State>, steps: seq<Step>, step: Step) returns (more: seq<State>)
    requires IsRun(states, steps) && Enabled(states[|steps|], step)
    ensures more == states + [Next(states[|steps|], step)] && IsRun(more, steps + [step])
  {
    more := states + [Next(states[|steps|], step)];
  }

  /** It does happen: two replicas, one of which loses its lock session in the middle of its upgrade.
      Both then upgrade at once, from the same revision. */
  lemma LostSessionLetsAnotherIn(head: nat) returns (states: seq<State>, steps: seq<Step>)
    requires head > 0
    ensures IsRun(states, steps) && states[0].head == head
    ensures |states[|steps|].phases| == 2 && forall r | 0 <= r < 2 :: states[|steps|].phases[r] == Upgrading(0, 0)
    ensures !Exclusive(states[|steps|])
  {
    states, steps := [State(head, 0, None, [Starting, Starting], [])], [];
    states := Extend(states, steps, Connect(0));
    steps := steps + [Connect(0)];
    assert states[|steps|] == State(head, 0, None, [Queued, Starting], []);
    states := Extend(states, steps, Connect(1));
    steps := steps + [Connect(1)];
    assert states[|steps|] == State(head, 0, None, [Queued, Queued], []);
    states := Extend(states, steps, Acquire(0));
    steps := steps + [Acquire(0)];
    assert states[|steps|] == State(head, 0, Some(0), [Locked, Queued], []);
    states := Extend(states, steps, Begin(0));
    steps := steps + [Begin(0)];
    assert states[|steps|] == State(head, 0, Some(0), [Upgrading(0, 0), Queued], []);
    states := Extend(states, steps, LoseLockSession(0));
    steps := steps + [LoseLockSession(0)];
    assert states[|steps|] == State(head, 0, None, [Upgrading(0, 0), Queued], []);
    states := Extend(states, steps, Acquire(1));
    steps := steps + [Acquire(1)];
    assert states[|steps|] == State(head, 0, Some(1), [Upgrading(0, 0), Locked], []);
    states := Extend(states, steps, Begin(1));
    steps := steps + [Begin(1)];
    assert states[|steps|] == State(head, 0, Some(1), [Upgrading(0, 0), Upgrading(0, 0)], []);
    assert Inside(states[|steps|].phases[0]) && Inside(states[|steps|].phases[1]);
  }

  // ----- termination -----

  /** More than the steps a replica can still take. */
  function Rank(p: Phase, head: nat): nat {
    match p
    case Starting => head + 8
    case Queued => head + 7
    case Locked => head + 5
    case Upgrading(_, done) => if done <= head then head - done + 3 else 3
    case Upgraded => 2
    case _ => 0
  }

  function Work(phases: seq<Phase>, head: nat): nat {
    if phases == [] then 0 else Work(phases[..|phases| - 1], head) + Rank(phases[|phases| - 1], head)
  }

  function Measure(s: State): nat {
    Work(s.phases, s.head) + if s.lock.Some? then 1 else 0
  }

  lemma {:induction false} WorkOfUpdate(phases: seq<Phase>, r: nat, p: Phase, head: nat)
    requires r < |phases|
    ensures Work(phases[r := p], head) == Work(phases, head) - Rank(phases[r], head) + Rank(p, head)
  {
    var last := |phases| - 1;
    if r < last {
      WorkOfUpdate(phases[..last], r, p, head);
      assert phases[r := p][..last] == phases[..last][r := p];
    } else {
      assert phases[r := p][..last] == phases[..last];
    }
  }

  lemma StepDecreases(s: State, step: Step)
    requires Sound(s) && Enabled(s, step)
    ensures Measure(Next(s, step)) < Measure(s)
  {
    if !step.LoseLockSession? {
      WorkOfUpdate(s.phases, step.r, Next(s, step).phases[step.r], s.head);
    }
  }

  lemma {:induction false} RunsAreBounded(states: seq<State>, steps: seq<Step>, n: nat)
    requires IsRun(states, steps) && n < |states|
    ensures n + Measure(states[n]) <= Measure(states[0])
  {
    if n > 0 {
      RunsAreBounded(states, steps, n - 1);
      AlwaysSound(states, steps, n - 1);
      StepDecreases(states[n - 1], steps[n - 1]);
    }
  }

  /** No deadlock: until every replica serves or has exited, some replica can take a step that is
      neither a failure nor a loss, unless its lock session was lost before the unlock. */
  lemma SomeoneCanMove(s: State) returns (step: Step)
    requires Sound(s) && exists r :: 0 <= r < |s.phases| && !Over(s.phases[r])
    ensures Enabled(s, step) && !step.LoseLockSession?
    ensures step.Fail? ==> s.phases[step.r].Upgraded? && s.lock != Some(step.r)
  {
    var r :| 0 <= r < |s.phases| && !Over(s.phases[r]);
    var mover := if s.phases[r].Queued? && s.lock.Some? then s.lock.value else r;
    match s.phases[mover]
    case Starting => step := Connect(mover);
    case Queued => step := Acquire(mover);
    case Locked => step := Begin(mover);
    case Upgrading(_, done) => step := if done < s.head then Apply(mover) else Commit(mover);
    case Upgraded => step := if s.lock == Some(mover) then Unlock(mover) else Fail(mover);
  }

  /** Start-up ends: no run is longer than the measure of its first state, and a run that cannot go
      on has every replica serving or exited, with the schema at head if any of them serves. */
  lemma StartupEnds(states: seq<State>, steps: seq<Step>)
    requires IsRun(states, steps)
    ensures |steps| <= Measure(states[0])
    ensures var last := states[|steps|];
      (forall step :: !Enabled(last, step)) ==>
        (forall r | 0 <= r < |last.phases| :: Over(last.phases[r]))
        && ((exists r :: 0 <= r < |last.phases| && last.phases[r].Serving?) ==> last.rev == last.head)
  {
    RunsAreBounded(states, steps, |steps|);
    AlwaysSound(states, steps, |steps|);
    var last := states[|steps|];
    if exists r :: 0 <= r < |last.phases| && !Over(last.phases[r]) {
      var step := SomeoneCanMove(last);
    }
  }

  lemma {:induction false} OnlyFailuresExit(states: seq<State>, steps: seq<Step>, n: nat)
    requires IsRun(states, steps) && n < |states| && forall i | 0 <= i < |steps| :: !steps[i].Fail?
    ensures forall r | 0 <= r < |states[n].phases| :: !states[n].phases[r].Exited?
  {
    if n > 0 {
      OnlyFailuresExit(states, steps, n - 1);
      assert states[n] == Next(states[n - 1], steps[n - 1]);
    }
  }

  /** With no failure and no lost session, a start-up that has run its course has every replica
      serving at head. */
  lemma HealthyStartupServes(states: seq<State>, steps: seq<Step>)
    requires IsRun(states, steps) && forall i | 0 <= i < |steps| :: !steps[i].Fail?
    requires forall step :: Enabled(states[|steps|], step) ==> step.Fail? || step.LoseLockSession?
    requires KeepsLockSessions(steps)
    ensures var last := states[|steps|];
      && (forall r | 0 <= r < |last.phases| :: last.phases[r].Serving?)
      && (last.phases != [] ==> last.rev == last.head)
  {
    var last := states[|steps|];
    AlwaysSound(states, steps, |steps|);
    AlwaysGuarded(states, steps, |steps|);
    OnlyFailuresExit(states, steps, |steps|);
    forall r | 0 <= r < |last.phases| ensures last.phases[r].Serving? {
      assert !last.phases[r].Exited?;
      if !Over(last.phases[r]) {
        var step := SomeoneCanMove(last);
      }
    }
    if last.phases != [] {
      assert last.phases[0].Serving?;
    }
  }
}
