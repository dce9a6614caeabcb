/** No orphan: every leased or closing slot has somebody who will give it back
    or retire it, in every run that does not drop a reopening between taking a
    stale lease and retiring it. */
module PoolOwnership {
  import opened Wrappers
  import opened Errors
  import opened PoolState
  import opened PoolInvariant
  import opened PoolRun
  import PoolSteps

  datatype Owner = OfDatabase(db: DbId) | OfTask(task: Tid) | OfGuard | OfReservation

  ghost predicate Belongs(s: State, w: Wid, l: Lid) {
    w in s.slots && s.slots[w].state.BelongsTo(l)
  }

  ghost predicate Owns(s: State, o: Owner, w: Wid, l: Lid) {
    match o
    case OfDatabase(d) =>
      d in s.dbs && s.dbs[d].lease.Some? && s.dbs[d].lease.value.worker == w && s.dbs[d].lease.value.lease == l
    case OfTask(t) =>
      && t in s.tasks
      && (|| (s.tasks[t].Opening? && s.tasks[t].open.StaleTaken? && s.tasks[t].open.w == w && s.tasks[t].open.l == l)
          || (s.tasks[t].Disposing? && s.tasks[t].w == w && s.tasks[t].l == l))
    case OfGuard => (w, l) in s.losses.retiring
    case OfReservation => w in s.pool.reserved
  }

  ghost predicate Owned(s: State, w: Wid, l: Lid) {
    exists o :: Owns(s, o, w, l)
  }

  ghost predicate NoOrphan(s: State) {
    forall w, l {:trigger Belongs(s, w, l)} :: Belongs(s, w, l) ==> Owned(s, w, l)
  }

  /** A failed call that is not an open has lost its slot for good. */
  ghost predicate FailedAt(s: State, t: Tid) {
    t in s.tasks && s.tasks[t].Calling? && s.tasks[t].call.Failed? && s.tasks[t].c.kind.Ordinary? ==>
      !Admits(s.slots, s.tasks[t].c)
  }

  ghost predicate FailedGone(s: State) {
    forall t {:trigger FailedAt(s, t)} :: FailedAt(s, t)
  }

  /** An installed lease sits on a slot that is not a reservation. */
  ghost predicate SettledAt(s: State, l: Lid) {
    l in s.installs ==> s.installs[l].worker in s.slots && s.installs[l].worker !in s.pool.reserved
  }

  ghost predicate Settled(s: State) {
    forall l {:trigger SettledAt(s, l)} :: SettledAt(s, l)
  }

  ghost predicate Owning(s: State) {
    NoOrphan(s) && FailedGone(s) && Settled(s)
  }

  /** The one drop that strands a slot: between taking a stale lease and
      retiring it, with no other retirement of that lease pending. */
  ghost predicate Careless(s: State, a: Step) {
    && a.Upkeep? && a.upkeep.DoDrop?
    && var t := a.upkeep.t;
    && t in s.tasks && s.tasks[t].Opening? && s.tasks[t].open.StaleTaken?
    && Belongs(s, s.tasks[t].open.w, s.tasks[t].open.l)
    && (s.tasks[t].open.w, s.tasks[t].open.l) !in s.losses.retiring
  }

  // ---- Elementary moves of ownership ----

  /** All leased slots keep their owner or get `alt`; tasks other than `t` stay. */
  ghost predicate Moves(s: State, s1: State, alt: Owner, t: Tid) {
    && (forall w, l :: Belongs(s1, w, l) ==> Belongs(s, w, l) || (Owns(s1, alt, w, l) && l !in s.installs))
    && (forall w :: w in s1.slots && s1.slots[w].state.Leased? ==>
          (w in s.slots && s.slots[w].state == s1.slots[w].state) || s1.slots[w].state.lease !in s.installs)
    && (forall o, w, l :: Owns(s, o, w, l) && Belongs(s1, w, l) ==> Owns(s1, o, w, l) || Owns(s1, alt, w, l))
    && (forall u :: u in s1.tasks ==> (u in s.tasks && s1.tasks[u] == s.tasks[u]) || (u == t && FailedAt(s1, t)))
    && (forall l :: l in s1.installs && l !in s.installs ==> SettledAt(s1, l))
    && (forall l :: l in s.installs ==> l in s1.installs && s1.installs[l] == s.installs[l])
    && s.slots.Keys <= s1.slots.Keys
    && (forall w :: w in s1.pool.reserved ==> w in s.pool.reserved || w !in s.slots)
  }

  lemma MovesKeep(s: State, s1: State, alt: Owner, t: Tid)
    requires Inv(s) && Owning(s) && Moves(s, s1, alt, t)
    ensures Owning(s1)
  {
    forall w, l | Belongs(s1, w, l) ensures Owned(s1, w, l) {
      if Belongs(s, w, l) {
        var o :| Owns(s, o, w, l);
        assert Owns(s1, o, w, l) || Owns(s1, alt, w, l);
      }
    }
    forall u ensures FailedAt(s1, u) {
      assert FailedAt(s, u);
      assert ClaimAt(s.tasks, s.installs, s.pool.nextLid, u);
    }
    forall l ensures SettledAt(s1, l) { assert SettledAt(s, l); }
  }

  lemma OwnKill(s: State, w: Wid)
    requires Inv(s) && Owning(s) && w in s.slots
    ensures Owning(Kill(s, w))
  {
    var s1 := Kill(s, w);
    forall x, l | Belongs(s1, x, l) ensures Owned(s1, x, l) {
      assert Belongs(s, x, l);
      var o :| Owns(s, o, x, l);
      assert Owns(s1, o, x, l);
    }
    forall u ensures FailedAt(s1, u) { assert FailedAt(s, u); }
    forall l ensures SettledAt(s1, l) { assert SettledAt(s, l); }
  }

  lemma OwnKillForLease(s: State, w: Wid, l: Lid)
    requires Inv(s) && Owning(s) && w in s.slots
    ensures Owning(KillForLease(s, w, l))
    ensures !Belongs(KillForLease(s, w, l), w, l)
  {
    if s.slots[w].state.BelongsTo(l) { OwnKill(s, w); }
  }

  /** A step that changes nothing but task `t`, which keeps the slot it owns or leaves it to a guard. */
  lemma OwnTask(s: State, s1: State, t: Tid)
    requires Owning(s) && s1 == s.(tasks := s1.tasks) && s1.tasks - {t} == s.tasks - {t}
    requires forall w, l :: Owns(s, OfTask(t), w, l) && Belongs(s, w, l) ==> Owns(s1, OfTask(t), w, l) || Owns(s1, OfGuard, w, l)
    requires FailedAt(s1, t)
    ensures Owning(s1)
  {
    forall u | u != t ensures (u in s1.tasks <==> u in s.tasks) && (u in s.tasks ==> s1.tasks[u] == s.tasks[u]) {
      assert u in s1.tasks <==> u in s1.tasks - {t};
      assert u in s.tasks <==> u in s.tasks - {t};
      if u in s.tasks { assert (s1.tasks - {t})[u] == (s.tasks - {t})[u]; }
    }
    forall w, l | Belongs(s1, w, l) ensures Owned(s1, w, l) {
      assert Belongs(s, w, l);
      var o :| Owns(s, o, w, l);
      assert Owns(s1, o, w, l) || Owns(s1, OfGuard, w, l);
    }
    forall u ensures FailedAt(s1, u) { assert FailedAt(s, u); }
    forall l ensures SettledAt(s1, l) { assert SettledAt(s, l); }
  }

  /** Pool bookkeeping that neither adds nor removes a reservation. */
  lemma OwnPool(s: State, p: PoolInner)
    requires Owning(s) && p.reserved.Keys == s.pool.reserved.Keys
    ensures Owning(s.(pool := p))
  {
    var s1 := s.(pool := p);
    forall w, l | Belongs(s1, w, l) ensures Owned(s1, w, l) {
      assert Belongs(s, w, l);
      var o :| Owns(s, o, w, l);
      assert Owns(s1, o, w, l);
    }
    forall u ensures FailedAt(s1, u) { assert FailedAt(s, u); }
    forall l ensures SettledAt(s1, l) { assert SettledAt(s, l); }
  }

  /** More retirements become pending. */
  lemma OwnLosses(s: State, losses: Losses)
    requires Owning(s) && s.losses.retiring <= losses.retiring
    ensures Owning(s.(losses := losses))
  {
    var s1 := s.(losses := losses);
    forall w, l | Belongs(s1, w, l) ensures Owned(s1, w, l) {
      assert Belongs(s, w, l);
      var o :| Owns(s, o, w, l);
      assert Owns(s1, o, w, l);
    }
    forall u ensures FailedAt(s1, u) { assert FailedAt(s, u); }
    forall l ensures SettledAt(s1, l) { assert SettledAt(s, l); }
  }

  /** A step of a task that owns no slot before it and does not fail in it. */
  lemma OwnByStander(s: State, s1: State, t: Tid)
    requires Owning(s) && s1 == s.(tasks := s1.tasks) && s1.tasks - {t} == s.tasks - {t}
    requires t in s.tasks ==> !s.tasks[t].Disposing? && !(s.tasks[t].Opening? && s.tasks[t].open.StaleTaken?)
    requires FailedAt(s1, t)
    ensures Owning(s1)
  {
    OwnTask(s, s1, t);
  }

  /** An acquiring task moves on or ends. */
  lemma OwnAcquirer(s: State, t: Tid, at: AcquireStage)
    requires Inv(s) && Owning(s) && t in s.tasks && s.tasks[t].Acquires()
    ensures Owning(SetTask(s, t, At(s.tasks[t], at))) && Owning(EndTask(s, t))
  {
    OwnByStander(s, SetTask(s, t, At(s.tasks[t], at)), t);
    OwnByStander(s, EndTask(s, t), t);
  }

  // ---- Steps ----

  lemma NewDatabaseOwning(s: State, d: DbId, session: Session)
    requires Inv(s) && Owning(s) && CanNewDatabase(s, d)
    ensures Owning(NewDatabase(s, d, session))
  {
    MovesKeep(s, NewDatabase(s, d, session), OfGuard, 0);
  }

  lemma StaleTakeOwning(s: State, t: Tid)
    requires Inv(s) && Owning(s) && CanStaleTake(s, t)
    ensures Owning(StaleTake(s, t))
  {
    MovesKeep(s, StaleTake(s, t), OfTask(t), t);
  }

  lemma StaleRetireOwning(s: State, t: Tid)
    requires Inv(s) && Owning(s) && CanStaleRetire(s, t)
    ensures Owning(StaleRetire(s, t))
  {
    var w, l := s.tasks[t].open.w, s.tasks[t].open.l;
    OwnKillForLease(s, w, l);
    PoolSteps.KeepKillForLease(s, w, l);
    OwnTask(KillForLease(s, w, l), StaleRetire(s, t), t);
  }

  lemma DrawOwning(s: State, t: Tid)
    requires Inv(s) && Owning(s) && CanDraw(s, t)
    ensures Owning(Draw(s, t))
  {
    MovesKeep(s, Draw(s, t), OfGuard, t);
  }

  lemma DrawFailOwning(s: State, t: Tid)
    requires Inv(s) && Owning(s) && CanDrawFail(s, t)
    ensures Owning(DrawFail(s, t))
  {
    MovesKeep(s, DrawFail(s, t), OfGuard, t);
  }

  lemma OpenOwning(s: State, a: OpenStep)
    requires Inv(s) && Owning(s) && OpenStepEnabled(s, a)
    ensures Owning(OpenStepApply(s, a))
  {
    match a
    case DoNewDatabase(d, session) => NewDatabaseOwning(s, d, session);
    case DoOpenReuse(t, d, kind) => OwnByStander(s, OpenReuse(s, t, d, kind), t);
    case DoOpenStale(t, d) => OwnByStander(s, OpenStale(s, t, d), t);
    case DoStaleTake(t) => StaleTakeOwning(s, t);
    case DoStaleRetire(t) => StaleRetireOwning(s, t);
    case DoOpenFresh(t, d) => OwnByStander(s, OpenFresh(s, t, d), t);
    case DoDraw(t) => DrawOwning(s, t);
    case DoDrawFail(t) => DrawFailOwning(s, t);
  }

  lemma VisitIdleOwning(s: State, t: Tid, w: Wid, kind: CallKind)
    requires Inv(s) && Owning(s) && CanVisitIdle(s, t, w, kind)
    ensures Owning(VisitIdle(s, t, w, kind))
  {
    var s1 := VisitIdle(s, t, w, kind);
    assert WorkerAt(s.pool.children, s.pool.reserved, s.pool.nextWid, s.slots, w);
    assert ClaimAt(s.tasks, s.installs, s.pool.nextLid, t) && HandleAt(s.dbs, s.tasks, t);
    MovesKeep(s, s1, OfDatabase(s.tasks[t].d), t);
  }

  lemma ScanWaitOwning(s: State, t: Tid)
    requires Inv(s) && Owning(s) && CanScanWait(s, t)
    ensures Owning(ScanWait(s, t))
  {
    OwnPool(s, ScanWait(s, t).pool);
    OwnByStander(s.(pool := ScanWait(s, t).pool), ScanWait(s, t), t);
  }

  lemma ScanFailOwning(s: State, t: Tid)
    requires Inv(s) && Owning(s) && CanScanFail(s, t)
    ensures Owning(ScanFail(s, t))
  {
    OwnPool(s, ScanFail(s, t).pool);
    OwnByStander(s.(pool := ScanFail(s, t).pool), ScanFail(s, t), t);
  }

  lemma ScanReserveOwning(s: State, t: Tid)
    requires Inv(s) && Owning(s) && CanScanReserve(s, t)
    ensures Owning(ScanReserve(s, t))
  {
    assert WorkerAt(s.pool.children, s.pool.reserved, s.pool.nextWid, s.slots, s.pool.nextWid);
    MovesKeep(s, ScanReserve(s, t), OfGuard, t);
  }

  lemma AcquireOwning(s: State, a: AcquireStep)
    requires Inv(s) && Owning(s) && AcquireStepEnabled(s, a)
    ensures Owning(AcquireStepApply(s, a))
  {
    match a
    case DoRegister(t) => OwnAcquirer(s, t, Register(s, t).tasks[t].open.at);
    case DoScanStart(t) => OwnAcquirer(s, t, ScanStart(s, t).tasks[t].open.at);
    case DoVisitBusy(t, w) => OwnAcquirer(s, t, VisitBusy(s, t, w).tasks[t].open.at);
    case DoVisitIdle(t, w, kind) => VisitIdleOwning(s, t, w, kind);
    case DoScanWait(t) => ScanWaitOwning(s, t);
    case DoScanReserve(t) => ScanReserveOwning(s, t);
    case DoScanFail(t) => ScanFailOwning(s, t);
    case DoWake(t) => OwnAcquirer(s, t, Ready);
    case DoRejectAcquire(t) => OwnAcquirer(s, t, Ready);
  }

  lemma SpawnDoneOwning(s: State, w: Wid)
    requires Inv(s) && Owning(s) && CanSpawnDone(s, w)
    ensures Owning(SpawnDone(s, w))
  {
    var s1 := SpawnDone(s, w);
    assert ReservationAt(s.pool.reserved, s.slots, s.tasks, w);
    if s.pool.reserved[w].starter.Opener? { assert ClaimAt(s.tasks, s.installs, s.pool.nextLid, s.pool.reserved[w].starter.task); }
    forall x, l | Belongs(s1, x, l) ensures Owned(s1, x, l) {
      if x == w {
        assert Owns(s1, OfReservation, x, l);
      } else {
        assert Belongs(s, x, l);
        var o :| Owns(s, o, x, l);
        assert Owns(s1, o, x, l);
      }
    }
    forall u ensures FailedAt(s1, u) { assert FailedAt(s, u) && ClaimAt(s.tasks, s.installs, s.pool.nextLid, u); }
    forall l ensures SettledAt(s1, l) { assert SettledAt(s, l); }
  }

  lemma GiveUpOwning(s: State, w: Wid)
    requires Inv(s) && Owning(s) && w in s.pool.reserved && !s.pool.reserved[w].Abandoned?
    ensures Owning(GiveUp(s, w))
  {
    var p := s.pool.(reserved := s.pool.reserved[w := Abandoned]);
    assert ReservationAt(s.pool.reserved, s.slots, s.tasks, w);
    OwnPool(s, p);
    match s.pool.reserved[w].starter
    case Opener(t) => OwnByStander(s.(pool := p), GiveUp(s, w), t);
    case Replenisher =>
  }

  lemma InstallIdleOwning(s: State, w: Wid)
    requires Inv(s) && Owning(s) && CanInstallIdle(s, w)
    ensures Owning(InstallIdle(s, w))
  {
    assert ReservationAt(s.pool.reserved, s.slots, s.tasks, w);
    MovesKeep(s, InstallIdle(s, w), OfGuard, 0);
  }

  lemma InstallLeasedOwning(s: State, w: Wid, kind: CallKind)
    requires Inv(s) && Owning(s) && CanInstallLeased(s, w, kind)
    ensures Owning(InstallLeased(s, w, kind))
  {
    var t := s.pool.reserved[w].starter.task;
    assert ReservationAt(s.pool.reserved, s.slots, s.tasks, w) && ClaimAt(s.tasks, s.installs, s.pool.nextLid, t);
    assert HandleAt(s.dbs, s.tasks, t);
    MovesKeep(s, InstallLeased(s, w, kind), OfDatabase(s.tasks[t].d), t);
  }

  lemma DropReservationOwning(s: State, w: Wid)
    requires Inv(s) && Owning(s) && CanDropReservation(s, w)
    ensures Owning(DropReservation(s, w))
  {
    MovesKeep(s, DropReservation(s, w), OfGuard, 0);
  }

  lemma StartupOwning(s: State, a: StartupStep)
    requires Inv(s) && Owning(s) && StartupStepEnabled(s, a)
    ensures Owning(StartupStepApply(s, a))
  {
    match a
    case DoSpawnDone(w) => SpawnDoneOwning(s, w);
    case DoGiveUp(w) => GiveUpOwning(s, w);
    case DoInstallIdle(w) => InstallIdleOwning(s, w);
    case DoInstallLeased(w, kind) => InstallLeasedOwning(s, w, kind);
    case DoDiscard(w) => OwnKill(s, w);
    case DoDropReservation(w) => DropReservationOwning(s, w);
  }

  /** The step is a rewrite of slot `w` and a move of call `t`. */
  lemma OwnRewriteBy(s: State, s1: State, t: Tid, w: Wid)
    requires Inv(s) && Owning(s) && w in s.slots && w in s1.slots && s1.slots[w].state == s.slots[w].state
    requires s1 == s.(slots := s.slots[w := s1.slots[w]], tasks := s1.tasks) && s1.tasks - {t} == s.tasks - {t}
    requires t in s.tasks && s.tasks[t].Calling? && FailedAt(s1, t)
    ensures Owning(s1)
  {
    var s2 := s.(tasks := s1.tasks);
    assert FailedAt(s2, t);
    OwnByStander(s, s2, t);
    OwnSameStates(s2, s1, w);
  }

  lemma OwnSameStates(s2: State, s1: State, w: Wid)
    requires Owning(s2) && w in s2.slots && w in s1.slots && s1.slots[w].state == s2.slots[w].state
    requires s1 == s2.(slots := s2.slots[w := s1.slots[w]])
    ensures Owning(s1)
  {
    forall x, l | Belongs(s1, x, l) ensures Owned(s1, x, l) {
      assert Belongs(s2, x, l);
      var o :| Owns(s2, o, x, l);
      assert Owns(s1, o, x, l);
    }
    forall u ensures FailedAt(s1, u) { assert FailedAt(s2, u); }
    forall l ensures SettledAt(s1, l) { assert SettledAt(s2, l); }
  }

  lemma SendOwning(s: State, t: Tid, ok: bool)
    requires Inv(s) && Owning(s) && CanSend(s, t)
    ensures Owning(Send(s, t, ok))
  {
    OwnRewriteBy(s, Send(s, t, ok), t, s.tasks[t].c.worker);
  }

  lemma RetireCallOwning(s: State, t: Tid, cause: RetireCause)
    requires Inv(s) && Owning(s) && CanRetireCall(s, t, cause)
    ensures Owning(RetireCall(s, t, cause))
  {
    var w, l := s.tasks[t].c.worker, s.tasks[t].c.lease;
    OwnKillForLease(s, w, l);
    PoolSteps.KeepKillForLease(s, w, l);
    OwnByStander(KillForLease(s, w, l), RetireCall(s, t, cause), t);
  }

  lemma SettleCallOwning(s: State, t: Tid, reply: Reply)
    requires Inv(s) && Owning(s) && CanSettleCall(s, t, reply)
    ensures Owning(SettleCall(s, t, reply))
  {
    OwnByStander(s, SettleCall(s, t, reply), t);
  }

  lemma SettleOpenOwning(s: State, t: Tid, reply: Reply)
    requires Inv(s) && Owning(s) && CanSettleOpen(s, t, reply)
    ensures Owning(SettleOpen(s, t, reply))
  {
    OwnRewriteBy(s, SettleOpen(s, t, reply), t, s.tasks[t].c.worker);
  }

  lemma UnbindOwning(s: State, t: Tid)
    requires Inv(s) && Owning(s) && CanUnbind(s, t)
    ensures Owning(Unbind(s, t))
  {
    var c := s.tasks[t].c;
    assert FailedAt(s, t) && ClaimAt(s.tasks, s.installs, s.pool.nextLid, t) && HandleAt(s.dbs, s.tasks, t);
    assert BoundAt(s.dbs, s.installs, c.db) && BindingAt(s.slots, s.dbs, c.db);
    if SameGeneration(s, c) { assert InstallsApart(s.installs, c.lease, s.dbs[c.db].lease.value.lease); }
    MovesKeep(s, Unbind(s, t), OfTask(t), t);
  }

  lemma PinOwning(s: State, t: Tid)
    requires Inv(s) && Owning(s) && CanPin(s, t)
    ensures Owning(Pin(s, t))
  {
    MovesKeep(s, Pin(s, t), OfGuard, t);
  }

  lemma CallOwning(s: State, a: CallStep)
    requires Inv(s) && Owning(s) && CallStepEnabled(s, a)
    ensures Owning(CallStepApply(s, a))
  {
    match a
    case DoCallStart(t, d, expected, kind) => OwnByStander(s, CallStart(s, t, d, expected, kind), t);
    case DoLockCall(t) => OwnByStander(s, LockCall(s, t), t);
    case DoRejectCall(t) => OwnByStander(s, RejectCall(s, t), t);
    case DoNeverDispatch(t) => OwnByStander(s, NeverDispatch(s, t), t);
    case DoSend(t, ok) => SendOwning(s, t, ok);
    case DoRetireCall(t, cause) => RetireCallOwning(s, t, cause);
    case DoSettleCall(t, reply) => SettleCallOwning(s, t, reply);
    case DoSettleOpen(t, reply) => SettleOpenOwning(s, t, reply);
    case DoUnbind(t) => UnbindOwning(s, t);
    case DoPin(t) => PinOwning(s, t);
  }

  lemma CloseOwning(s: State, t: Tid, d: DbId, expected: Option<Gen>)
    requires Inv(s) && Owning(s) && CanClose(s, t, d, expected)
    ensures Owning(Close(s, t, d, expected))
  {
    MovesKeep(s, Close(s, t, d, expected), OfTask(t), t);
  }

  lemma ReapTakeOwning(s: State, t: Tid, d: DbId)
    requires Inv(s) && Owning(s) && CanReapTake(s, t, d)
    ensures Owning(ReapTake(s, t, d))
  {
    MovesKeep(s, ReapTake(s, t, d), OfTask(t), t);
  }

  lemma ReleaseLockOwning(s: State, t: Tid)
    requires Inv(s) && Owning(s) && CanReleaseLock(s, t)
    ensures Owning(ReleaseLock(s, t))
  {
    if s.slots[s.tasks[t].w].state.BelongsTo(s.tasks[t].l) {
      MovesKeep(s, ReleaseLock(s, t), OfGuard, t);
    } else {
      OwnTask(s, ReleaseLock(s, t), t);
    }
  }

  lemma ReleaseRetireOwning(s: State, t: Tid)
    requires Inv(s) && Owning(s) && InRelease(s, t)
    ensures Owning(ReleaseRetire(s, t))
  {
    var w, l := s.tasks[t].w, s.tasks[t].l;
    OwnKillForLease(s, w, l);
    PoolSteps.KeepKillForLease(s, w, l);
    OwnTask(KillForLease(s, w, l), ReleaseRetire(s, t), t);
  }

  lemma ReleaseIdleOwning(s: State, t: Tid)
    requires Inv(s) && Owning(s) && InRelease(s, t)
    ensures Owning(ReleaseIdle(s, t))
  {
    var s1 := ReleaseIdle(s, t);
    assert SlotAt(s.slots, s.tasks, t);
    forall x, l | Belongs(s1, x, l) ensures Owned(s1, x, l) {
      assert Belongs(s, x, l);
      var o :| Owns(s, o, x, l);
      assert Owns(s1, o, x, l);
    }
    forall u ensures FailedAt(s1, u) { assert FailedAt(s, u); }
    forall l ensures SettledAt(s1, l) { assert SettledAt(s, l); }
  }

  lemma ReapMarkOwning(s: State, t: Tid)
    requires Inv(s) && Owning(s) && CanReapMark(s, t)
    ensures Owning(ReapMark(s, t))
  {
    var w := s.tasks[t].w;
    if s.slots[w].state != Dead {
      OwnKill(s, w);
      PoolSteps.KeepKill(s, w);
    }
    OwnTask(KillAny(s, w), ReapMark(s, t), t);
  }

  lemma ReleaseOwning(s: State, a: ReleaseStep)
    requires Inv(s) && Owning(s) && ReleaseStepEnabled(s, a)
    ensures Owning(ReleaseStepApply(s, a))
  {
    match a
    case DoClose(t, d, expected) => CloseOwning(s, t, d, expected);
    case DoReleaseLock(t) => ReleaseLockOwning(s, t);
    case DoReleaseRetire(t, o) => ReleaseRetireOwning(s, t);
    case DoReleaseIdle(t, o) => ReleaseIdleOwning(s, t);
    case DoReapTake(t, d) => ReapTakeOwning(s, t, d);
    case DoReapMark(t) => ReapMarkOwning(s, t);
  }

  lemma GuardRetireOwning(s: State, w: Wid, l: Lid)
    requires Inv(s) && Owning(s) && CanGuardRetire(s, w, l)
    ensures Owning(GuardRetire(s, w, l))
  {
    var s1 := KillForLease(s, w, l);
    OwnKillForLease(s, w, l);
    PoolSteps.KeepKillForLease(s, w, l);
    MovesKeep(s1, GuardRetire(s, w, l), OfReservation, 0);
  }

  lemma ForgetOwning(s: State, w: Wid)
    requires Inv(s) && Owning(s) && CanForget(s, w)
    ensures Owning(Forget(s, w))
  {
    OwnLosses(s, Forget(s, w).losses);
    OwnPool(s.(losses := Forget(s, w).losses), Forget(s, w).pool);
  }

  lemma ForgetLostOwning(s: State, w: Wid)
    requires Inv(s) && Owning(s) && CanForgetLost(s, w)
    ensures Owning(ForgetLost(s, w))
  {
    OwnLosses(s, ForgetLost(s, w).losses);
  }

  lemma LoseTransportOwning(s: State, w: Wid)
    requires Inv(s) && Owning(s) && CanLoseTransport(s, w)
    ensures Owning(LoseTransport(s, w))
  {
    MovesKeep(s, LoseTransport(s, w), OfGuard, 0);
  }

  lemma {:induction false} RefillOwning(s: State)
    requires Inv(s) && Owning(s)
    ensures Owning(s.(pool := Refill(s.cfg, s.pool)))
    decreases s.cfg.maxWid - s.pool.nextWid
  {
    var p := s.pool;
    if !p.shuttingDown && |p.reserved| + |p.children| < s.cfg.Floor() && p.nextWid < s.cfg.maxWid {
      var q := p.(reserved := p.reserved[p.nextWid := StartingUp(Replenisher)], nextWid := p.nextWid + 1);
      RefillOnceOwning(s, q);
      PoolSteps.KeepRefill(s, q);
      RefillOwning(s.(pool := q));
    }
  }

  lemma RefillOnceOwning(s: State, q: PoolInner)
    requires Inv(s) && Owning(s)
    requires q == s.pool.(reserved := s.pool.reserved[s.pool.nextWid := StartingUp(Replenisher)], nextWid := s.pool.nextWid + 1)
    ensures Owning(s.(pool := q))
  {
    assert WorkerAt(s.pool.children, s.pool.reserved, s.pool.nextWid, s.slots, s.pool.nextWid);
    MovesKeep(s, s.(pool := q), OfGuard, 0);
  }

  lemma ReplenishOwning(s: State)
    requires Inv(s) && Owning(s) && CanReplenish(s)
    ensures Owning(Replenish(s))
  {
    OwnPool(s, s.pool.(replenishDue := false));
    RefillOwning(s.(pool := s.pool.(replenishDue := false)));
  }

  lemma DropOwning(s: State, t: Tid)
    requires Inv(s) && Owning(s) && CanDrop(s, t) && !Careless(s, Upkeep(DoDrop(t)))
    ensures Owning(Drop(s, t))
  {
    if Spawns(s.tasks[t]) {
      assert SpawnerAt(s.pool.reserved, s.tasks, t);
      GiveUpOwning(s, s.tasks[t].open.at.w);
      assert Drop(s, t) == GiveUp(s, s.tasks[t].open.at.w);
    } else {
      OwnLosses(s, Drop(s, t).losses);
      OwnTask(s.(losses := Drop(s, t).losses), Drop(s, t), t);
    }
  }

  lemma UpkeepOwning(s: State, a: UpkeepStep)
    requires Inv(s) && Owning(s) && UpkeepStepEnabled(s, a) && !Careless(s, Upkeep(a))
    ensures Owning(UpkeepStepApply(s, a))
  {
    match a
    case DoGuardRetire(w, l) => GuardRetireOwning(s, w, l);
    case DoIdleReap(w) => OwnKill(s, w);
    case DoForget(w) => ForgetOwning(s, w);
    case DoForgetLost(w) => ForgetLostOwning(s, w);
    case DoReplenish => ReplenishOwning(s);
    case DoLoseTransport(w) => LoseTransportOwning(s, w);
    case DoDrop(t) => DropOwning(s, t);
  }

  lemma ShutOwning(s: State, a: ShutStep)
    requires Inv(s) && Owning(s) && ShutStepEnabled(s, a)
    ensures Owning(ShutStepApply(s, a))
  {
    match a
    case DoShutBegin => OwnPool(s, ShutBegin(s).pool);
    case DoShutSnapshot => OwnPool(s, ShutSnapshot(s).pool);
    case DoShutMark(w) => OwnKill(s, w);
    case DoShutForget(w) => OwnPool(s, ShutForget(s, w).pool);
    case DoShutDone => OwnPool(s, ShutDone(s).pool);
  }

  lemma StepOwning(s: State, a: Step)
    requires Inv(s) && Owning(s) && Enabled(s, a) && !Careless(s, a)
    ensures Owning(Apply(s, a))
  {
    match a
    case Open(b) => OpenOwning(s, b);
    case Acquire(b) => AcquireOwning(s, b);
    case Startup(b) => StartupOwning(s, b);
    case Call(b) => CallOwning(s, b);
    case Release(b) => ReleaseOwning(s, b);
    case Upkeep(b) => UpkeepOwning(s, b);
    case Shut(b) => ShutOwning(s, b);
  }
}
