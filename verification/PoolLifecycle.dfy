/** What one step can do to a slot, to the identifiers and to the histories, and
    what follows for whole runs: bindings are exclusive, a call reaches only the
    open it belongs to, and nothing is retired twice. */
module PoolLifecycle {
  import opened Wrappers
  import opened Errors
  import opened PoolState
  import opened PoolInvariant
  import opened PoolRun

  /** The life of a slot: Idle, Leased(l), Closing(l), Idle again; Dead from anywhere, for good. */
  predicate SlotNext(before: ChildState, after: ChildState) {
    match before
    case Idle => after.Idle? || after.Leased? || after.Dead?
    case Leased(_, l) => after == before || after == ChildState.Closing(l) || after.Dead?
    case Closing(_) => after == before || after.Idle? || after.Dead?
    case Dead => after.Dead?
  }

  ghost predicate SlotGrows(s: State, s1: State, w: Wid) {
    && (w in s.slots ==> w in s1.slots && SlotNext(s.slots[w].state, s1.slots[w].state))
    && (w in s1.slots && w !in s.slots ==> w in s.pool.reserved && s.pool.reserved[w].StartingUp?)
    && (w in s.losses.handed ==> w in s1.losses.handed && s1.losses.handed[w] == s.losses.handed[w])
  }

  ghost predicate InstallGrows(s: State, s1: State, l: Lid) {
    && (l in s.installs ==> l in s1.installs && s1.installs[l] == s.installs[l])
  }

  /** Identifiers only go up, histories only grow, slots follow their life. */
  ghost predicate Grows(s: State, s1: State) {
    && (forall w {:trigger SlotGrows(s, s1, w)} :: SlotGrows(s, s1, w))
    && (forall l {:trigger InstallGrows(s, s1, l)} :: InstallGrows(s, s1, l))
    && s.pool.nextWid <= s1.pool.nextWid && s.pool.nextLid <= s1.pool.nextLid
    && (s.pool.shuttingDown ==> s1.pool.shuttingDown)
    && s1.cfg == s.cfg
  }

  lemma GrowsOther(s: State, s1: State)
    requires s1.slots == s.slots && s1.losses.handed == s.losses.handed && s1.installs == s.installs
    requires s.pool.nextWid <= s1.pool.nextWid && s.pool.nextLid <= s1.pool.nextLid
    requires (s.pool.shuttingDown ==> s1.pool.shuttingDown) && s1.cfg == s.cfg
    ensures Grows(s, s1)
  {
  }

  lemma GrowsKill(s: State, w: Wid, s1: State)
    requires Inv(s) && w in s.slots && s.slots[w].state != Dead
    requires s1.slots == Kill(s, w).slots && s1.losses.handed == Kill(s, w).losses.handed
    requires s1.pool == s.pool && s1.installs == s.installs && s1.cfg == s.cfg
    ensures Grows(s, s1)
  {
    assert LossAt(s.slots, s.losses, w);
  }

  lemma GrowsKillForLease(s: State, w: Wid, l: Lid, s1: State)
    requires Inv(s) && w in s.slots
    requires s1.slots == KillForLease(s, w, l).slots && s1.losses.handed == KillForLease(s, w, l).losses.handed
    requires s1.pool == s.pool && s1.installs == s.installs && s1.cfg == s.cfg
    ensures Grows(s, s1)
  {
    if s.slots[w].state.BelongsTo(l) { GrowsKill(s, w, s1); } else { GrowsOther(s, s1); }
  }

  lemma OpenGrows(s: State, a: OpenStep)
    requires Inv(s) && OpenStepEnabled(s, a)
    ensures Grows(s, OpenStepApply(s, a))
  {
    var s1 := OpenStepApply(s, a);
    match a
    case DoStaleRetire(t) => GrowsKillForLease(s, s.tasks[t].open.w, s.tasks[t].open.l, s1);
    case _ => GrowsOther(s, s1);
  }

  lemma AcquireGrows(s: State, a: AcquireStep)
    requires Inv(s) && AcquireStepEnabled(s, a)
    ensures Grows(s, AcquireStepApply(s, a))
  {
    var s1 := AcquireStepApply(s, a);
    match a
    case DoVisitIdle(t, w, kind) =>
      assert ClaimAt(s.tasks, s.installs, s.pool.nextLid, t);
    case _ => GrowsOther(s, s1);
  }

  lemma StartupGrows(s: State, a: StartupStep)
    requires Inv(s) && StartupStepEnabled(s, a)
    ensures Grows(s, StartupStepApply(s, a))
  {
    var s1 := StartupStepApply(s, a);
    match a
    case DoSpawnDone(w) => assert ReservationAt(s.pool.reserved, s.slots, s.tasks, w);
    case DoInstallLeased(w, kind) =>
      assert ReservationAt(s.pool.reserved, s.slots, s.tasks, w);
      assert ClaimAt(s.tasks, s.installs, s.pool.nextLid, s.pool.reserved[w].starter.task);
    case DoDiscard(w) => GrowsKill(s, w, s1);
    case _ => GrowsOther(s, s1);
  }

  lemma SettleCallGrows(s: State, t: Tid, reply: Reply)
    requires CanSettleCall(s, t, reply)
    ensures Grows(s, SettleCall(s, t, reply))
  {
    GrowsOther(s, SettleCall(s, t, reply));
  }

  lemma UnbindGrows(s: State, t: Tid)
    requires CanUnbind(s, t)
    ensures Grows(s, Unbind(s, t))
  {
    GrowsOther(s, Unbind(s, t));
  }

  lemma PinGrows(s: State, t: Tid)
    requires CanPin(s, t)
    ensures Grows(s, Pin(s, t))
  {
    GrowsOther(s, Pin(s, t));
  }

  lemma CallGrows(s: State, a: CallStep)
    requires Inv(s) && CallStepEnabled(s, a)
    ensures Grows(s, CallStepApply(s, a))
  {
    var s1 := CallStepApply(s, a);
    match a
    case DoSend(t, ok) =>
    case DoRetireCall(t, cause) => GrowsKillForLease(s, s.tasks[t].c.worker, s.tasks[t].c.lease, s1);
    case DoSettleOpen(t, reply) =>
    case DoSettleCall(t, reply) => SettleCallGrows(s, t, reply);
    case DoUnbind(t) => UnbindGrows(s, t);
    case DoPin(t) => PinGrows(s, t);
    case _ => GrowsOther(s, s1);
  }

  lemma ReleaseGrows(s: State, a: ReleaseStep)
    requires Inv(s) && ReleaseStepEnabled(s, a)
    ensures Grows(s, ReleaseStepApply(s, a))
  {
    var s1 := ReleaseStepApply(s, a);
    match a
    case DoReleaseLock(t) => assert SlotAt(s.slots, s.tasks, t);
    case DoReleaseRetire(t, o) => GrowsKillForLease(s, s.tasks[t].w, s.tasks[t].l, s1);
    case DoReleaseIdle(t, o) => assert SlotAt(s.slots, s.tasks, t);
    case DoReapMark(t) => if s.slots[s.tasks[t].w].state != Dead { GrowsKill(s, s.tasks[t].w, s1); } else { GrowsOther(s, s1); }
    case _ => GrowsOther(s, s1);
  }

  lemma {:induction false} RefillGrows(cfg: Config, p: PoolInner)
    ensures Refill(cfg, p) == p.(reserved := Refill(cfg, p).reserved, nextWid := Refill(cfg, p).nextWid)
    ensures Refill(cfg, p).nextWid >= p.nextWid
    decreases cfg.maxWid - p.nextWid
  {
    if !p.shuttingDown && |p.reserved| + |p.children| < cfg.Floor() && p.nextWid < cfg.maxWid {
      RefillGrows(cfg, p.(reserved := p.reserved[p.nextWid := StartingUp(Replenisher)], nextWid := p.nextWid + 1));
    }
  }

  lemma UpkeepGrows(s: State, a: UpkeepStep)
    requires Inv(s) && UpkeepStepEnabled(s, a)
    ensures Grows(s, UpkeepStepApply(s, a))
  {
    var s1 := UpkeepStepApply(s, a);
    match a
    case DoGuardRetire(w, l) => GrowsKillForLease(s, w, l, s1);
    case DoIdleReap(w) => GrowsKill(s, w, s1);
    case DoReplenish =>
      RefillGrows(s.cfg, s.pool.(replenishDue := false));
      GrowsOther(s, s1);
    case DoLoseTransport(w) =>
    case _ => GrowsOther(s, s1);
  }

  lemma ShutGrows(s: State, a: ShutStep)
    requires Inv(s) && ShutStepEnabled(s, a)
    ensures Grows(s, ShutStepApply(s, a))
  {
    var s1 := ShutStepApply(s, a);
    match a
    case DoShutMark(w) => GrowsKill(s, w, s1);
    case _ => GrowsOther(s, s1);
  }

  lemma StepGrows(s: State, a: Step)
    requires Inv(s) && Enabled(s, a)
    ensures Grows(s, Apply(s, a))
  {
    match a
    case Open(b) => OpenGrows(s, b);
    case Acquire(b) => AcquireGrows(s, b);
    case Startup(b) => StartupGrows(s, b);
    case Call(b) => CallGrows(s, b);
    case Release(b) => ReleaseGrows(s, b);
    case Upkeep(b) => UpkeepGrows(s, b);
    case Shut(b) => ShutGrows(s, b);
  }

  // ---- Whole runs ----

  lemma RunStepGrows(states: seq<State>, steps: seq<Step>, i: nat)
    requires Run(states, steps) && i < |steps|
    ensures Inv(states[i]) && Grows(states[i], states[i + 1])
  {
    RunKeeps(states, steps, i);
    assert NextAt(states, steps, i);
    StepGrows(states[i], steps[i]);
  }

  /** What a later state still has of an earlier one. */
  ghost predicate Grown(s: State, s1: State) {
    && s.slots.Keys <= s1.slots.Keys
    && (forall w :: w in s.slots && s.slots[w].state == Dead ==> s1.slots[w].state == Dead)
    && (forall l :: l in s.installs ==> l in s1.installs && s1.installs[l] == s.installs[l])
    && (forall w :: w in s.losses.handed ==> w in s1.losses.handed && s1.losses.handed[w] == s.losses.handed[w])
    && s.pool.nextWid <= s1.pool.nextWid && s.pool.nextLid <= s1.pool.nextLid
    && (s.pool.shuttingDown ==> s1.pool.shuttingDown)
  }

  /** The same for one worker and one lease. */
  ghost predicate GrownAt(s: State, s1: State, w: Wid, l: Lid) {
    && (w in s.slots ==> w in s1.slots && (s.slots[w].state == Dead ==> s1.slots[w].state == Dead))
    && (l in s.installs ==> l in s1.installs && s1.installs[l] == s.installs[l])
    && (w in s.losses.handed ==> w in s1.losses.handed && s1.losses.handed[w] == s.losses.handed[w])
    && s.pool.nextWid <= s1.pool.nextWid && s.pool.nextLid <= s1.pool.nextLid
    && (s.pool.shuttingDown ==> s1.pool.shuttingDown)
  }

  lemma RunStepGrownAt(states: seq<State>, steps: seq<Step>, i: nat, w: Wid, l: Lid)
    requires Run(states, steps) && i < |steps|
    ensures GrownAt(states[i], states[i + 1], w, l)
  {
    RunStepGrows(states, steps, i);
    assert SlotGrows(states[i], states[i + 1], w) && InstallGrows(states[i], states[i + 1], l);
  }

  lemma {:induction false} RunGrownAt(states: seq<State>, steps: seq<Step>, i: nat, j: nat, w: Wid, l: Lid)
    requires Run(states, steps) && i <= j < |states|
    ensures GrownAt(states[i], states[j], w, l)
    decreases j
  {
    if i < j {
      RunGrownAt(states, steps, i, j - 1, w, l);
      RunStepGrownAt(states, steps, j - 1, w, l);
    }
  }

  lemma AllGrown(s: State, s1: State)
    requires forall w, l {:trigger GrownAt(s, s1, w, l)} :: GrownAt(s, s1, w, l)
    ensures Grown(s, s1)
  {
    assert GrownAt(s, s1, 0, 0);
    forall w | w in s.slots ensures w in s1.slots && (s.slots[w].state == Dead ==> s1.slots[w].state == Dead) {
      assert GrownAt(s, s1, w, 0);
    }
    forall w | w in s.losses.handed ensures w in s1.losses.handed && s1.losses.handed[w] == s.losses.handed[w] {
      assert GrownAt(s, s1, w, 0);
    }
    forall l | l in s.installs ensures l in s1.installs && s1.installs[l] == s.installs[l] { assert GrownAt(s, s1, 0, l); }
  }

  /** Worker ids, lease installations and handed-over artifacts are never reused,
      moved or handed over again; a dead worker stays dead. */
  lemma RunGrows(states: seq<State>, steps: seq<Step>, i: nat, j: nat)
    requires Run(states, steps) && i <= j < |states|
    ensures Grown(states[i], states[j])
  {
    forall w, l ensures GrownAt(states[i], states[j], w, l) { RunGrownAt(states, steps, i, j, w, l); }
    AllGrown(states[i], states[j]);
  }

  /** Exclusive binding: an installed lease points to a slot that is dead or
      leased under exactly that lease, and no live slot is bound twice. */
  lemma ExclusiveBinding(states: seq<State>, steps: seq<Step>, i: nat)
    requires Run(states, steps) && i < |states|
    ensures var s := states[i];
            && (forall d :: d in s.dbs && s.dbs[d].lease.Some? ==>
                  var b := s.dbs[d].lease.value;
                  b.worker in s.slots && (s.slots[b.worker].state == Dead || s.slots[b.worker].state == Leased(s.dbs[d].session, b.lease)))
            && (forall d, e | d in s.dbs && e in s.dbs && d != e && s.dbs[d].lease.Some? && s.dbs[e].lease.Some? ::
                  s.dbs[d].lease.value.worker == s.dbs[e].lease.value.worker ==>
                    s.dbs[d].lease.value.worker in s.slots && s.slots[s.dbs[d].lease.value.worker].state == Dead)
  {
    RunKeeps(states, steps, i);
    var s := states[i];
    forall d | d in s.dbs && s.dbs[d].lease.Some?
      ensures PlacedFor(s.slots, s.dbs[d].lease.value.worker, s.dbs[d].session, s.dbs[d].lease.value.lease)
    {
      assert BindingAt(s.slots, s.dbs, d);
    }
    forall d, e | d in s.dbs && e in s.dbs && d != e && s.dbs[d].lease.Some? && s.dbs[e].lease.Some?
                  && s.dbs[d].lease.value.worker == s.dbs[e].lease.value.worker
      ensures s.slots[s.dbs[d].lease.value.worker].state == Dead
    {
      assert BindingAt(s.slots, s.dbs, d) && BindingAt(s.slots, s.dbs, e) && DbsApart(s.dbs, d, e);
      assert DbHolds(s.dbs, d, s.dbs[d].lease.value.lease) && DbHolds(s.dbs, e, s.dbs[e].lease.value.lease);
    }
  }

  /** The step is the end of a release of lease `l` on slot `w`, by the future that holds its call lock. */
  ghost predicate ReleasedBy(s: State, a: Step, w: Wid, l: Lid) {
    && a.Release? && a.release.DoReleaseIdle? && a.release.t in s.tasks
    && s.tasks[a.release.t] == Disposing(w, l, ClosingDown) && s.tasks[a.release.t].HoldsCall(w)
  }

  /** Only the releasing future that holds the call lock takes a slot out of Closing
      alive, and only after the child settled its close or was never asked. */
  lemma ClosingExits(states: seq<State>, steps: seq<Step>, i: nat, w: Wid)
    requires Run(states, steps) && i < |steps| && w in states[i].slots && states[i].slots[w].state.Closing?
    ensures w in states[i + 1].slots
    ensures var before, after := states[i].slots[w].state, states[i + 1].slots[w].state;
            || after == before || after.Dead?
            || (after.Idle? && ReleasedBy(states[i], steps[i], w, before.lease) && !Unsettled(steps[i].release.outcome))
  {
    var s, s1 := states[i], states[i + 1];
    RunStepGrows(states, steps, i);
    assert SlotGrows(s, s1, w) && NextAt(states, steps, i);
    if s1.slots[w].state.Idle? {
      IdleOnlyByRelease(s, steps[i], w);
      CloseRetiresIff(steps[i].release.outcome);
    }
  }

  lemma IdleOnlyByRelease(s: State, a: Step, w: Wid)
    requires Inv(s) && Enabled(s, a) && w in s.slots && s.slots[w].state.Closing? && w in Apply(s, a).slots && Apply(s, a).slots[w].state.Idle?
    ensures ReleasedBy(s, a, w, s.slots[w].state.lease)
  {
    match a
    case Open(b) => OpenNoIdle(s, b, w);
    case Acquire(b) => AcquireNoIdle(s, b, w);
    case Startup(b) => StartupNoIdle(s, b, w);
    case Call(b) => CallNoIdle(s, b, w);
    case Release(b) => ReleaseToIdle(s, b, w);
    case Upkeep(b) => UpkeepNoIdle(s, b, w);
    case Shut(b) => ShutNoIdle(s, b, w);
  }

  lemma OpenNoIdle(s: State, a: OpenStep, w: Wid)
    requires OpenStepEnabled(s, a) && w in s.slots && !s.slots[w].state.Idle?
    ensures w in OpenStepApply(s, a).slots && !OpenStepApply(s, a).slots[w].state.Idle?
  {
  }

  lemma AcquireNoIdle(s: State, a: AcquireStep, w: Wid)
    requires AcquireStepEnabled(s, a) && w in s.slots && !s.slots[w].state.Idle?
    ensures w in AcquireStepApply(s, a).slots && !AcquireStepApply(s, a).slots[w].state.Idle?
  {
  }

  lemma StartupNoIdle(s: State, a: StartupStep, w: Wid)
    requires Inv(s) && StartupStepEnabled(s, a) && w in s.slots && !s.slots[w].state.Idle?
    ensures w in StartupStepApply(s, a).slots && !StartupStepApply(s, a).slots[w].state.Idle?
  {
    match a
    case DoSpawnDone(x) => assert ReservationAt(s.pool.reserved, s.slots, s.tasks, x);
    case _ =>
  }

  lemma CallNoIdle(s: State, a: CallStep, w: Wid)
    requires CallStepEnabled(s, a) && w in s.slots && !s.slots[w].state.Idle?
    ensures w in CallStepApply(s, a).slots && !CallStepApply(s, a).slots[w].state.Idle?
  {
  }

  lemma UpkeepNoIdle(s: State, a: UpkeepStep, w: Wid)
    requires UpkeepStepEnabled(s, a) && w in s.slots && !s.slots[w].state.Idle?
    ensures w in UpkeepStepApply(s, a).slots && !UpkeepStepApply(s, a).slots[w].state.Idle?
  {
  }

  lemma ShutNoIdle(s: State, a: ShutStep, w: Wid)
    requires ShutStepEnabled(s, a) && w in s.slots && !s.slots[w].state.Idle?
    ensures w in ShutStepApply(s, a).slots && !ShutStepApply(s, a).slots[w].state.Idle?
  {
  }

  lemma ReleaseToIdle(s: State, a: ReleaseStep, w: Wid)
    requires Inv(s) && ReleaseStepEnabled(s, a) && w in s.slots && s.slots[w].state.Closing?
    requires w in ReleaseStepApply(s, a).slots && ReleaseStepApply(s, a).slots[w].state.Idle?
    ensures a.DoReleaseIdle? && a.t in s.tasks && s.tasks[a.t] == Disposing(w, s.slots[w].state.lease, ClosingDown)
  {
    match a
    case DoReleaseIdle(t, o) => assert SlotAt(s.slots, s.tasks, t);
    case _ =>
  }

  /** Generation gating: whenever a call is sent, its slot is leased under the one
      lease id that was ever installed at the call's database generation. */
  lemma GenerationGating(states: seq<State>, steps: seq<Step>, i: nat, t: Tid, ok: bool)
    requires Run(states, steps) && i < |steps| && steps[i] == Step.Call(DoSend(t, ok))
    ensures t in states[i].tasks && states[i].tasks[t].Calling?
    ensures var s, c := states[i], states[i].tasks[t].c;
            && c.worker in s.slots && s.slots[c.worker].state == Leased(c.session, c.lease)
            && c.lease in s.installs && s.installs[c.lease] == Install(c.db, c.generation, c.worker)
            && (forall j, l | i <= j < |states| && l in states[j].installs ::
                  states[j].installs[l].db == c.db && states[j].installs[l].generation == c.generation ==> l == c.lease)
  {
    RunKeeps(states, steps, i);
    var s := states[i];
    assert NextAt(states, steps, i);
    var c := s.tasks[t].c;
    assert ClaimAt(s.tasks, s.installs, s.pool.nextLid, t);
    forall j, l | i <= j < |states| && l in states[j].installs
                  && states[j].installs[l].db == c.db && states[j].installs[l].generation == c.generation
      ensures l == c.lease
    {
      RunKeeps(states, steps, j);
      RunGrows(states, steps, i, j);
      assert InstallsApart(states[j].installs, l, c.lease);
    }
  }

  /** A call bound to a generation starts only on the binding of that generation, and keeps it. */
  lemma CallStartBinds(s: State, t: Tid, d: DbId, g: Gen, kind: CallKind)
    requires Inv(s) && CanCallStart(s, t, d, Some(g), kind)
    ensures var c := CallStart(s, t, d, Some(g), kind).tasks[t].c;
            c.db == d && c.generation == g && c.lease in s.installs && s.installs[c.lease] == Install(d, g, c.worker)
  {
    assert BoundAt(s.dbs, s.installs, d);
  }

  // ---- A call from its start to its dispatch ----

  /** A call stays the same call until its future ends or starts to dispose of the lease. */
  ghost predicate CallKept(s: State, s1: State, t: Tid) {
    t in s.tasks && t in s1.tasks ==>
      && (s.tasks[t].Calling? ==> (s1.tasks[t].Calling? && s1.tasks[t].c == s.tasks[t].c) || s1.tasks[t].Disposing?)
      && (s.tasks[t].Disposing? ==> s1.tasks[t].Disposing?)
  }

  lemma OpenCallKept(s: State, a: OpenStep, t: Tid)
    requires OpenStepEnabled(s, a)
    ensures CallKept(s, OpenStepApply(s, a), t)
  {
  }

  lemma AcquireCallKept(s: State, a: AcquireStep, t: Tid)
    requires AcquireStepEnabled(s, a)
    ensures CallKept(s, AcquireStepApply(s, a), t)
  {
  }

  lemma StartupCallKept(s: State, a: StartupStep, t: Tid)
    requires StartupStepEnabled(s, a)
    ensures CallKept(s, StartupStepApply(s, a), t)
  {
  }

  lemma CallCallKept(s: State, a: CallStep, t: Tid)
    requires CallStepEnabled(s, a)
    ensures CallKept(s, CallStepApply(s, a), t)
  {
  }

  lemma ReleaseCallKept(s: State, a: ReleaseStep, t: Tid)
    requires ReleaseStepEnabled(s, a)
    ensures CallKept(s, ReleaseStepApply(s, a), t)
  {
  }

  lemma UpkeepCallKept(s: State, a: UpkeepStep, t: Tid)
    requires UpkeepStepEnabled(s, a)
    ensures CallKept(s, UpkeepStepApply(s, a), t)
  {
  }

  lemma StepCallKept(s: State, a: Step, t: Tid)
    requires Enabled(s, a)
    ensures CallKept(s, Apply(s, a), t)
  {
    match a
    case Open(b) => OpenCallKept(s, b, t);
    case Acquire(b) => AcquireCallKept(s, b, t);
    case Startup(b) => StartupCallKept(s, b, t);
    case Call(b) => CallCallKept(s, b, t);
    case Release(b) => ReleaseCallKept(s, b, t);
    case Upkeep(b) => UpkeepCallKept(s, b, t);
    case Shut(b) =>
  }

  lemma RunStepCallKept(states: seq<State>, steps: seq<Step>, i: nat, t: Tid)
    requires Run(states, steps) && i < |steps|
    ensures CallKept(states[i], states[i + 1], t)
  {
    assert NextAt(states, steps, i);
    StepCallKept(states[i], steps[i], t);
  }

  lemma {:induction false} SameCall(states: seq<State>, steps: seq<Step>, i: nat, j: nat, t: Tid)
    requires Run(states, steps) && i <= j < |states| && (forall k | i <= k <= j :: t in states[k].tasks) && states[i].tasks[t].Calling?
    ensures (states[j].tasks[t].Calling? && states[j].tasks[t].c == states[i].tasks[t].c) || states[j].tasks[t].Disposing?
    decreases j
  {
    if i < j {
      SameCall(states, steps, i, j - 1, t);
      RunStepCallKept(states, steps, j - 1, t);
    }
  }

  /** The call that future `t` makes in step `i`, on the binding of `d` at that moment. */
  lemma StartedCall(states: seq<State>, steps: seq<Step>, i: nat, t: Tid, d: DbId, g: Gen, kind: CallKind)
    requires Run(states, steps) && i < |steps| && steps[i] == Step.Call(DoCallStart(t, d, Some(g), kind))
    ensures Bound(states[i], d) && t in states[i + 1].tasks
    ensures states[i + 1].tasks[t] == Calling(BoundCall(states[i], d, kind), Queued)
    ensures states[i].dbs[d].lease.value.generation == g
  {
    assert NextAt(states, steps, i);
  }

  /** Generation gating, end to end: a call that was started for generation `g` of
      database `d` is sent, however much later, only on the worker and under the lease
      that were bound at `g` when it started, while the worker is leased under exactly
      that lease; no other lease was or will be installed at `g`. */
  lemma GatedEndToEnd(states: seq<State>, steps: seq<Step>, i: nat, j: nat, t: Tid, d: DbId, g: Gen, kind: CallKind, ok: bool)
    requires Run(states, steps) && i < j < |steps|
    requires steps[i] == Step.Call(DoCallStart(t, d, Some(g), kind)) && steps[j] == Step.Call(DoSend(t, ok))
    requires forall k | i < k <= j :: t in states[k].tasks
    ensures d in states[i].dbs && states[i].dbs[d].lease.Some? && states[j].tasks[t].Calling?
    ensures var b, s, c := states[i].dbs[d].lease.value, states[j], states[j].tasks[t].c;
            && b.generation == g && c.db == d && c.generation == g && c.worker == b.worker && c.lease == b.lease && c.kind == kind
            && c.worker in s.slots && s.slots[c.worker].state == Leased(c.session, c.lease)
            && (forall k, l | j <= k < |states| && l in states[k].installs ::
                  states[k].installs[l].db == d && states[k].installs[l].generation == g ==> l == b.lease)
  {
    StartedCall(states, steps, i, t, d, g, kind);
    SameCall(states, steps, i + 1, j, t);
    GenerationGating(states, steps, j, t, ok);
  }
}
