/** No zombie binding: a caller whose call retired its worker unbinds that lease,
    and a lease that left its database never comes back. */
module PoolZombies {
  import opened Errors
  import opened PoolState
  import opened PoolInvariant
  import opened PoolRun
  import opened PoolLifecycle
  import opened PoolSteps

  /** A lease a database holds after the step, it held before, unless it is new. */
  ghost predicate HeldFrom(s: State, s1: State, d: DbId, l: Lid) {
    DbHolds(s1.dbs, d, l) ==> DbHolds(s.dbs, d, l) || l !in s.installs
  }

  lemma OpenHeld(s: State, a: OpenStep, d: DbId, l: Lid)
    requires OpenStepEnabled(s, a)
    ensures HeldFrom(s, OpenStepApply(s, a), d, l)
  {
  }

  lemma AcquireHeld(s: State, a: AcquireStep, d: DbId, l: Lid)
    requires Inv(s) && AcquireStepEnabled(s, a)
    ensures HeldFrom(s, AcquireStepApply(s, a), d, l)
  {
    match a
    case DoVisitIdle(t, w, kind) => assert ClaimAt(s.tasks, s.installs, s.pool.nextLid, t);
    case _ =>
  }

  lemma StartupHeld(s: State, a: StartupStep, d: DbId, l: Lid)
    requires Inv(s) && StartupStepEnabled(s, a)
    ensures HeldFrom(s, StartupStepApply(s, a), d, l)
  {
    match a
    case DoInstallLeased(w, kind) => assert ClaimAt(s.tasks, s.installs, s.pool.nextLid, s.pool.reserved[w].starter.task);
    case _ =>
  }

  lemma CallHeld(s: State, a: CallStep, d: DbId, l: Lid)
    requires CallStepEnabled(s, a)
    ensures HeldFrom(s, CallStepApply(s, a), d, l)
  {
  }

  lemma ReleaseHeld(s: State, a: ReleaseStep, d: DbId, l: Lid)
    requires ReleaseStepEnabled(s, a)
    ensures HeldFrom(s, ReleaseStepApply(s, a), d, l)
  {
  }

  lemma UpkeepHeld(s: State, a: UpkeepStep, d: DbId, l: Lid)
    requires UpkeepStepEnabled(s, a)
    ensures HeldFrom(s, UpkeepStepApply(s, a), d, l)
  {
  }

  lemma StepHeld(s: State, a: Step, d: DbId, l: Lid)
    requires Inv(s) && Enabled(s, a)
    ensures HeldFrom(s, Apply(s, a), d, l)
  {
    match a
    case Open(b) => OpenHeld(s, b, d, l);
    case Acquire(b) => AcquireHeld(s, b, d, l);
    case Startup(b) => StartupHeld(s, b, d, l);
    case Call(b) => CallHeld(s, b, d, l);
    case Release(b) => ReleaseHeld(s, b, d, l);
    case Upkeep(b) => UpkeepHeld(s, b, d, l);
    case Shut(b) =>
  }

  lemma RunStepHeld(states: seq<State>, steps: seq<Step>, i: nat, d: DbId, l: Lid)
    requires Run(states, steps) && i < |steps|
    ensures HeldFrom(states[i], states[i + 1], d, l)
  {
    RunKeeps(states, steps, i);
    assert NextAt(states, steps, i);
    StepHeld(states[i], steps[i], d, l);
  }

  /** A lease that no longer is the binding of its database never is again. */
  lemma {:induction false} UnboundForGood(states: seq<State>, steps: seq<Step>, i: nat, j: nat, d: DbId, l: Lid)
    requires Run(states, steps) && i <= j < |states| && l in states[i].installs && !DbHolds(states[i].dbs, d, l)
    ensures !DbHolds(states[j].dbs, d, l)
    decreases j
  {
    if i < j {
      UnboundForGood(states, steps, i, j - 1, d, l);
      RunGrows(states, steps, i, j - 1);
      RunStepHeld(states, steps, j - 1, d, l);
    }
  }

  /** Call `t` failed with an error that came from retiring its worker. */
  ghost predicate FailedByRetirement(s: State, t: Tid, cause: RetireCause) {
    && t in s.tasks && s.tasks[t].Calling? && s.tasks[t].call == Failed(RetireError(cause))
    && (cause.FatalReply? ==> FatalReplyRetires(s.tasks[t].c.kind.ToolOf(), cause.message))
  }

  /** Call `t` was refused at admission: its worker is dead or serves another lease. */
  ghost predicate FailedByRejection(s: State, t: Tid) {
    && t in s.tasks && s.tasks[t].Calling?
    && (s.tasks[t].call == Failed(WorkerCrashed) || s.tasks[t].call == Failed(DatabaseReplaced))
  }

  /** Call `t` failed with an error on which its caller gives up the lease. */
  ghost predicate GivesUp(s: State, t: Tid) {
    && t in s.tasks && s.tasks[t].Calling? && s.tasks[t].call.Failed?
    && (if s.tasks[t].c.kind.Open? then OpenErrorReleasesLease(s.tasks[t].c.kind.freshLease, s.tasks[t].call.error)
        else CallErrorClearsLease(s.tasks[t].call.error))
  }

  lemma RetirementGivesUp(s: State, t: Tid, cause: RetireCause)
    requires FailedByRetirement(s, t, cause)
    ensures GivesUp(s, t)
  {
    var c := s.tasks[t].c;
    assert CallErrorClearsLease(RetireError(cause));
    RetiringErrorsUnbind(c.kind.ToolOf(), c.kind.Open? && c.kind.freshLease, cause);
  }

  lemma UnbindClears(s: State, t: Tid, d: DbId)
    requires Inv(s) && CanUnbind(s, t) && GivesUp(s, t)
    ensures !DbHolds(Unbind(s, t).dbs, d, s.tasks[t].c.lease)
  {
    var c := s.tasks[t].c;
    assert ClaimAt(s.tasks, s.installs, s.pool.nextLid, t) && BoundAt(s.dbs, s.installs, d);
    if SameGeneration(s, c) { SameLeaseIsTheLease(s, t); }
  }

  lemma UnbindEffect(states: seq<State>, steps: seq<Step>, i: nat, t: Tid)
    requires Run(states, steps) && i < |steps| && steps[i] == Step.Call(DoUnbind(t))
    ensures CanUnbind(states[i], t) && states[i + 1] == Unbind(states[i], t)
  {
    assert NextAt(states, steps, i);
  }

  lemma GivenUpForGood(states: seq<State>, steps: seq<Step>, i: nat, j: nat, t: Tid, d: DbId)
    requires Run(states, steps) && i < j < |states| && steps[i] == Step.Call(DoUnbind(t)) && GivesUp(states[i], t)
    ensures !DbHolds(states[j].dbs, d, states[i].tasks[t].c.lease)
  {
    var l := states[i].tasks[t].c.lease;
    RunKeeps(states, steps, i);
    UnbindEffect(states, steps, i, t);
    UnbindClears(states[i], t, d);
    assert ClaimAt(states[i].tasks, states[i].installs, states[i].pool.nextLid, t);
    RunGrows(states, steps, i, i + 1);
    UnboundForGood(states, steps, i + 1, j, d, l);
  }

  /** No zombie: once the caller of a call that retired its worker, or that was
      refused at admission, has reacted to the error, no database is bound to that
      lease for the rest of the run. */
  lemma NoZombie(states: seq<State>, steps: seq<Step>, i: nat, j: nat, t: Tid, cause: RetireCause, d: DbId)
    requires Run(states, steps) && i < j < |states| && steps[i] == Step.Call(DoUnbind(t))
    requires FailedByRetirement(states[i], t, cause) || FailedByRejection(states[i], t)
    ensures !DbHolds(states[j].dbs, d, states[i].tasks[t].c.lease)
  {
    if FailedByRetirement(states[i], t, cause) { RetirementGivesUp(states[i], t, cause); }
    GivenUpForGood(states, steps, i, j, t, d);
  }
}
