/** Acquirers that wait for a startup: what they are owed and how it arrives. */
module PoolWaiting {
  import opened Wrappers
  import opened PoolState
  import opened PoolInvariant
  import opened PoolRun
  import opened PoolCapacity
  import opened PoolLifecycle

  /** The stages in which an acquirer remembers when it registered. */
  predicate Remembers(k: Task) {
    k.Acquires() && (k.open.at.Registered? || k.open.at.Scanning? || k.open.at.Waiting?)
  }

  predicate RegisteredAt(s: State, k: Task)
    requires Remembers(k)
  {
    k.open.at.seen == s.pool.notifications && k.open.at.deathsSeen == s.losses.deaths
  }

  predicate SameMemory(k: Task, k1: Task)
    requires Remembers(k1)
  {
    Remembers(k) && k1.open.at.seen == k.open.at.seen && k1.open.at.deathsSeen == k.open.at.deathsSeen
  }

  /** What an acquirer remembers after the step it remembered before, or it registers in it. */
  ghost predicate MemoryFrom(s: State, a: Step, s1: State, t: Tid) {
    t in s1.tasks && Remembers(s1.tasks[t]) ==>
      || (t in s.tasks && SameMemory(s.tasks[t], s1.tasks[t]))
      || (a == Acquire(DoRegister(t)) && RegisteredAt(s, s1.tasks[t]))
  }

  ghost predicate StartupAt(s: State, s1: State, w: Wid) {
    w in s.pool.reserved ==> w in s1.pool.reserved || s1.pool.notifications > s.pool.notifications
  }

  /** Deaths whose forgetting step is not pending. */
  function Unannounced(losses: Losses): int {
    losses.deaths - |losses.forgetting|
  }

  predicate Loses(a: Step) {
    a.Upkeep? && a.upkeep.DoForgetLost?
  }

  /** No startup ends silently, and no death goes unannounced silently but by a lost forget. */
  ghost predicate Announces(s: State, s1: State, lossy: bool) {
    && s.pool.notifications <= s1.pool.notifications
    && (s1.pool.notifications == s.pool.notifications ==>
          Unannounced(s1.losses) <= Unannounced(s.losses) + if lossy then 1 else 0)
    && (forall w {:trigger StartupAt(s, s1, w)} :: StartupAt(s, s1, w))
  }

  lemma KillAnnounces(s: State, w: Wid, s1: State)
    requires Inv(s) && w in s.slots && s.slots[w].state != Dead
    requires s1.pool == s.pool
    requires s1.losses.deaths == s.losses.deaths + 1 && s1.losses.forgetting == s.losses.forgetting + {w}
    ensures Announces(s, s1, false)
  {
    assert LossAt(s.slots, s.losses, w);
  }

  lemma KillForLeaseAnnounces(s: State, w: Wid, l: Lid, s1: State)
    requires Inv(s) && w in s.slots
    requires s1.pool == s.pool
    requires s1.losses.deaths == KillForLease(s, w, l).losses.deaths && s1.losses.forgetting == KillForLease(s, w, l).losses.forgetting
    ensures Announces(s, s1, false)
  {
    if s.slots[w].state.BelongsTo(l) { KillAnnounces(s, w, s1); }
  }

  /** A step of a task that waits for nothing. */
  lemma QuietAnnounces(s: State, s1: State)
    requires s1.pool == s.pool && s1.losses.deaths == s.losses.deaths && s1.losses.forgetting == s.losses.forgetting
    ensures Announces(s, s1, false)
  {
  }

  lemma OpenAnnounces(s: State, a: OpenStep)
    requires Inv(s) && OpenStepEnabled(s, a)
    ensures Announces(s, OpenStepApply(s, a), false)
  {
    match a
    case DoStaleRetire(t) => KillForLeaseAnnounces(s, s.tasks[t].open.w, s.tasks[t].open.l, OpenStepApply(s, a));
    case _ =>
  }

  lemma AcquireAnnounces(s: State, a: AcquireStep)
    requires Inv(s) && AcquireStepEnabled(s, a)
    ensures Announces(s, AcquireStepApply(s, a), false)
  {
  }

  lemma StartupAnnounces(s: State, a: StartupStep)
    requires Inv(s) && StartupStepEnabled(s, a)
    ensures Announces(s, StartupStepApply(s, a), false)
  {
    match a
    case DoDiscard(w) => KillAnnounces(s, w, StartupStepApply(s, a));
    case _ =>
  }

  lemma CallAnnounces(s: State, a: CallStep)
    requires Inv(s) && CallStepEnabled(s, a)
    ensures Announces(s, CallStepApply(s, a), false)
  {
    match a
    case DoRetireCall(t, cause) => KillForLeaseAnnounces(s, s.tasks[t].c.worker, s.tasks[t].c.lease, CallStepApply(s, a));
    case _ => QuietAnnounces(s, CallStepApply(s, a));
  }

  lemma ReleaseAnnounces(s: State, a: ReleaseStep)
    requires Inv(s) && ReleaseStepEnabled(s, a)
    ensures Announces(s, ReleaseStepApply(s, a), false)
  {
    match a
    case DoReleaseRetire(t, o) => KillForLeaseAnnounces(s, s.tasks[t].w, s.tasks[t].l, ReleaseStepApply(s, a));
    case DoReapMark(t) =>
      if s.slots[s.tasks[t].w].state != Dead { KillAnnounces(s, s.tasks[t].w, ReleaseStepApply(s, a)); }
    case _ =>
  }

  lemma {:induction false} RefillReserves(cfg: Config, p: PoolInner)
    ensures p.reserved.Keys <= Refill(cfg, p).reserved.Keys
    decreases cfg.maxWid - p.nextWid
  {
    if !p.shuttingDown && |p.reserved| + |p.children| < cfg.Floor() && p.nextWid < cfg.maxWid {
      RefillReserves(cfg, p.(reserved := p.reserved[p.nextWid := StartingUp(Replenisher)], nextWid := p.nextWid + 1));
    }
  }

  lemma DropAnnounces(s: State, t: Tid)
    requires Inv(s) && CanDrop(s, t)
    ensures Announces(s, Drop(s, t), false)
  {
  }

  lemma UpkeepAnnounces(s: State, a: UpkeepStep)
    requires Inv(s) && UpkeepStepEnabled(s, a)
    ensures Announces(s, UpkeepStepApply(s, a), a.DoForgetLost?)
  {
    match a
    case DoGuardRetire(w, l) => KillForLeaseAnnounces(s, w, l, UpkeepStepApply(s, a));
    case DoIdleReap(w) => KillAnnounces(s, w, UpkeepStepApply(s, a));
    case DoReplenish =>
      RefillGrows(s.cfg, s.pool.(replenishDue := false));
      RefillReserves(s.cfg, s.pool.(replenishDue := false));
    case DoLoseTransport(w) => QuietAnnounces(s, LoseTransport(s, w));
    case DoDrop(t) => DropAnnounces(s, t);
    case _ =>
  }

  lemma ShutAnnounces(s: State, a: ShutStep)
    requires Inv(s) && ShutStepEnabled(s, a)
    ensures Announces(s, ShutStepApply(s, a), false)
  {
    match a
    case DoShutMark(w) => KillAnnounces(s, w, ShutStepApply(s, a));
    case _ =>
  }

  lemma StepAnnounces(s: State, a: Step)
    requires Inv(s) && Enabled(s, a)
    ensures Announces(s, Apply(s, a), Loses(a))
  {
    match a
    case Open(b) => OpenAnnounces(s, b);
    case Acquire(b) => AcquireAnnounces(s, b);
    case Startup(b) => StartupAnnounces(s, b);
    case Call(b) => CallAnnounces(s, b);
    case Release(b) => ReleaseAnnounces(s, b);
    case Upkeep(b) => UpkeepAnnounces(s, b);
    case Shut(b) => ShutAnnounces(s, b);
  }

  lemma RunStepAnnounces(states: seq<State>, steps: seq<Step>, i: nat)
    requires Run(states, steps) && i < |steps|
    ensures Announces(states[i], states[i + 1], Loses(steps[i]))
  {
    RunKeeps(states, steps, i);
    assert NextAt(states, steps, i);
    StepAnnounces(states[i], steps[i]);
  }

  // ---- What acquirers remember ----

  lemma OpenRemembers(s: State, a: OpenStep, t: Tid)
    requires OpenStepEnabled(s, a)
    ensures MemoryFrom(s, Step.Open(a), OpenStepApply(s, a), t)
  {
  }

  lemma AcquireRemembers(s: State, a: AcquireStep, t: Tid)
    requires AcquireStepEnabled(s, a)
    ensures MemoryFrom(s, Acquire(a), AcquireStepApply(s, a), t)
  {
  }

  lemma StartupRemembers(s: State, a: StartupStep, t: Tid)
    requires StartupStepEnabled(s, a)
    ensures MemoryFrom(s, Startup(a), StartupStepApply(s, a), t)
  {
  }

  lemma CallRemembers(s: State, a: CallStep, t: Tid)
    requires CallStepEnabled(s, a)
    ensures MemoryFrom(s, Step.Call(a), CallStepApply(s, a), t)
  {
  }

  lemma ReleaseRemembers(s: State, a: ReleaseStep, t: Tid)
    requires ReleaseStepEnabled(s, a)
    ensures MemoryFrom(s, Release(a), ReleaseStepApply(s, a), t)
  {
  }

  lemma UpkeepRemembers(s: State, a: UpkeepStep, t: Tid)
    requires UpkeepStepEnabled(s, a)
    ensures MemoryFrom(s, Upkeep(a), UpkeepStepApply(s, a), t)
  {
  }

  lemma StepRemembers(s: State, a: Step, t: Tid)
    requires Enabled(s, a)
    ensures MemoryFrom(s, a, Apply(s, a), t)
  {
    match a
    case Open(b) => OpenRemembers(s, b, t);
    case Acquire(b) => AcquireRemembers(s, b, t);
    case Startup(b) => StartupRemembers(s, b, t);
    case Call(b) => CallRemembers(s, b, t);
    case Release(b) => ReleaseRemembers(s, b, t);
    case Upkeep(b) => UpkeepRemembers(s, b, t);
    case Shut(b) =>
  }

  lemma RunStepRemembers(states: seq<State>, steps: seq<Step>, i: nat, t: Tid)
    requires Run(states, steps) && i < |steps|
    ensures MemoryFrom(states[i], steps[i], states[i + 1], t)
  {
    assert NextAt(states, steps, i);
    StepRemembers(states[i], steps[i], t);
  }

  /** An acquirer that remembers a registration did register, at a step of the run,
      and has remembered it ever since. */
  lemma {:induction false} WaiterRegistered(states: seq<State>, steps: seq<Step>, j: nat, t: Tid) returns (i: nat)
    requires Run(states, steps) && j < |states| && t in states[j].tasks && Remembers(states[j].tasks[t])
    ensures i < j && steps[i] == Acquire(DoRegister(t)) && RegisteredAt(states[i], states[j].tasks[t])
    ensures forall k | i < k <= j :: t in states[k].tasks && SameMemory(states[k].tasks[t], states[j].tasks[t])
  {
    RunStepRemembers(states, steps, j - 1, t);
    if t in states[j - 1].tasks && SameMemory(states[j - 1].tasks[t], states[j].tasks[t]) {
      i := WaiterRegistered(states, steps, j - 1, t);
    } else {
      i := j - 1;
    }
  }

  // ---- Waiting without a notification ----

  /** The retirements that the steps from `i` up to `j` cut short before their forget. */
  function LostForgets(steps: seq<Step>, i: nat, j: nat): nat
    requires i <= j <= |steps|
  {
    if i == j then 0 else LostForgets(steps, i, j - 1) + if Loses(steps[j - 1]) then 1 else 0
  }

  /** While nobody is notified, every further death has its notifying step pending
      or was one of the retirements cut short. */
  lemma {:induction false} QuietDeaths(states: seq<State>, steps: seq<Step>, i: nat, j: nat)
    requires Run(states, steps) && i <= j < |states|
    ensures states[i].pool.notifications <= states[j].pool.notifications
    ensures states[i].pool.notifications == states[j].pool.notifications ==>
              Unannounced(states[j].losses) <= Unannounced(states[i].losses) + LostForgets(steps, i, j)
    decreases j
  {
    if i < j {
      QuietDeaths(states, steps, i, j - 1);
      RunStepAnnounces(states, steps, j - 1);
    }
  }

  /** Blocked acquirers are never stranded, with the exact count: without a
      notification since it registered, no child is idle, a startup is outstanding,
      and startups, live children, slots about to be forgotten and retirements cut
      short since then fill the capacity. */
  lemma NeverStrandedPending(states: seq<State>, steps: seq<Step>, j: nat, t: Tid) returns (i: nat)
    requires Run(states, steps) && j < |states| && t in states[j].tasks
    requires states[j].tasks[t].Acquires() && states[j].tasks[t].open.at.Waiting?
    ensures i < j && steps[i] == Acquire(DoRegister(t)) && RegisteredAt(states[i], states[j].tasks[t])
    ensures var s := states[j];
            || CanWake(s, t)
            || (&& s.pool.reserved != map[]
                && (forall w :: w in s.pool.children ==> w in s.slots && !s.slots[w].state.Idle?)
                && |s.pool.reserved| + |LiveIn(s.slots, s.pool.children)| + |s.losses.forgetting| + LostForgets(steps, i, j)
                   >= s.cfg.maxWorkers)
  {
    i := WaiterRegistered(states, steps, j, t);
    NeverStranded(states, steps, j, t);
    QuietDeaths(states, steps, i, j);
  }

  /** A startup leaves the reservations only with a notification. */
  lemma StartupEndsAloud(states: seq<State>, steps: seq<Step>, i: nat, w: Wid)
    requires Run(states, steps) && i < |steps| && w in states[i].pool.reserved && w !in states[i + 1].pool.reserved
    ensures states[i + 1].pool.notifications > states[i].pool.notifications
    ensures forall t :: (&& t in states[i].tasks && t in states[i + 1].tasks && states[i + 1].tasks[t] == states[i].tasks[t]
                         && states[i].tasks[t].Acquires() && states[i].tasks[t].open.at.Waiting?) ==> CanWake(states[i + 1], t)
  {
    RunStepAnnounces(states, steps, i);
    assert StartupAt(states[i], states[i + 1], w);
    RunCounts(states, steps, i);
    forall t | t in states[i].tasks ensures WaitOk(LedgerOf(states[i]), states[i].tasks[t]) {
      assert WaitAt(LedgerOf(states[i]), states[i].tasks, t);
    }
  }

  /** Some startup step of `w` can be taken now. */
  ghost predicate StartupMoves(s: State, w: Wid) {
    || CanSpawnDone(s, w) || CanInstallIdle(s, w) || CanGiveUp(s, w) || CanDiscard(s, w) || CanDropReservation(s, w)
    || CanInstallLeased(s, w, CallKind.Open(true, "", None))
  }

  /** No startup is ever stuck: whenever the pool mutex is free it has a step of its own. */
  lemma StartupProgress(states: seq<State>, steps: seq<Step>, i: nat, w: Wid)
    requires Run(states, steps) && i < |states| && w in states[i].pool.reserved && PoolFree(states[i].tasks)
    ensures StartupMoves(states[i], w)
  {
    var s := states[i];
    RunKeeps(states, steps, i);
    assert ReservationAt(s.pool.reserved, s.slots, s.tasks, w);
    if !s.pool.reserved[w].Abandoned? && s.pool.reserved[w].starter.Opener? {
      assert HandleAt(s.dbs, s.tasks, s.pool.reserved[w].starter.task);
    }
  }
}
