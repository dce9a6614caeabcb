/** Every step of the pool machine preserves its invariant. */
module PoolSteps {
  import opened Wrappers
  import opened Errors
  import opened PoolState
  import opened PoolInvariant
  import opened PoolFrames

  // ---- Changes that several steps share ----

  /** Task `t` may move to stage `k` without asking for a lease. */
  ghost predicate Fits(s: State, t: Tid, k: Task) {
    && (k.Opening? ==> DbFree(s.tasks - {t}, k.d))
    && (forall w :: k.HoldsCall(w) ==> CallFree(s.tasks - {t}, w))
    && (k.Scans() ==> PoolFree(s.tasks - {t}))
    && (forall l :: k.HoldsLease(l) ==> TaskHolds(s.tasks, t, l))
    && HandleOk(s.dbs, k)
    && ClaimOk(k, s.installs, s.pool.nextLid)
    && SlotOk(s.slots, k)
    && ScanOk(k, s.pool.children, s.slots)
    && !Spawns(k) && (t in s.tasks ==> !Spawns(s.tasks[t]))
  }

  /** What the invariant says about one task. */
  lemma Facts(s: State, t: Tid)
    requires Inv(s) && t in s.tasks
    ensures HandleOk(s.dbs, s.tasks[t]) && ClaimOk(s.tasks[t], s.installs, s.pool.nextLid)
    ensures SlotOk(s.slots, s.tasks[t]) && ScanOk(s.tasks[t], s.pool.children, s.slots)
    ensures s.tasks[t].Opening? ==> DbFree(s.tasks - {t}, s.tasks[t].d)
    ensures forall w :: s.tasks[t].HoldsCall(w) ==> CallFree(s.tasks - {t}, w)
    ensures s.tasks[t].Scans() ==> PoolFree(s.tasks - {t})
    ensures SpawnerAt(s.pool.reserved, s.tasks, t)
  {
    assert HandleAt(s.dbs, s.tasks, t) && ClaimAt(s.tasks, s.installs, s.pool.nextLid, t);
    assert SlotAt(s.slots, s.tasks, t) && ScanAt(s.pool.children, s.slots, s.tasks, t);
    LocksHeld(s.tasks, t);
  }

  /** What the invariant says about one binding. */
  lemma BindingFacts(s: State, d: DbId)
    requires Inv(s) && d in s.dbs && s.dbs[d].lease.Some?
    ensures BindingAt(s.slots, s.dbs, d) && BoundAt(s.dbs, s.installs, d)
    ensures s.dbs[d].lease.value.lease <= s.pool.nextLid
  {
    assert BindingAt(s.slots, s.dbs, d) && BoundAt(s.dbs, s.installs, d);
    assert InstallAt(s.dbs, s.installs, s.pool.nextLid, s.dbs[d].lease.value.lease);
  }

  lemma KeepSet(s: State, t: Tid, k: Task)
    requires Inv(s) && Fits(s, t, k)
    ensures Inv(SetTask(s, t, k))
  {
    LocksSet(s.tasks, t, k);
    HoldersSame(s.dbs, s.tasks, t, k);
    HandlesEnd(s.dbs, s.tasks, t);
    HandlesSet(s.dbs, s.tasks, t, k);
    assert ClaimAt(s.tasks, s.installs, s.pool.nextLid, t);
    ClaimsEnd(s.tasks, s.installs, s.pool.nextLid, t);
    ClaimsSet(s.tasks, s.installs, s.pool.nextLid, t, k);
    SlotsEnd(s.slots, s.dbs, s.tasks, t);
    SlotsSet(s.slots, s.dbs, s.tasks, t, k);
    ReservationsTasks(s.pool.reserved, s.slots, s.tasks, s.tasks[t := k], t);
    ScansEnd(s.pool.children, s.slots, s.tasks, t);
    ScansSet(s.pool.children, s.slots, s.tasks, t, k);
  }

  lemma KeepEnd(s: State, t: Tid)
    requires Inv(s) && (t in s.tasks ==> !Spawns(s.tasks[t]))
    ensures Inv(EndTask(s, t))
  {
    LocksEnd(s.tasks, t);
    HoldersEnd(s.dbs, s.tasks, t);
    HandlesEnd(s.dbs, s.tasks, t);
    ClaimsEnd(s.tasks, s.installs, s.pool.nextLid, t);
    SlotsEnd(s.slots, s.dbs, s.tasks, t);
    ReservationsTasks(s.pool.reserved, s.slots, s.tasks, s.tasks - {t}, t);
    ScansEnd(s.pool.children, s.slots, s.tasks, t);
  }

  /** A live slot dies. */
  lemma KeepKill(s: State, w: Wid)
    requires Inv(s) && w in s.slots && s.slots[w].state != Dead
    ensures Inv(Kill(s, w))
  {
    var slot := Slot(Dead, false, None, None);
    SlotsHarmless(s.slots, s.dbs, s.tasks, w, slot);
    WorkersSlot(s.pool.children, s.pool.reserved, s.pool.nextWid, s.slots, w, slot);
    ReservationsSlot(s.pool.reserved, s.slots, s.tasks, w, slot);
    ScansSlot(s.pool.children, s.slots, s.tasks, w, slot);
    var s1 := Kill(s, w);
    forall x ensures LossAt(s1.slots, s1.losses, x) { assert LossAt(s.slots, s.losses, x); }
  }

  lemma KeepKillForLease(s: State, w: Wid, l: Lid)
    requires Inv(s) && w in s.slots
    ensures Inv(KillForLease(s, w, l))
  {
    if s.slots[w].state.BelongsTo(l) { KeepKill(s, w); }
  }

  /** A lease leaves its database for task `t`. */
  lemma KeepTake(s: State, d: DbId, t: Tid, k: Task)
    requires Inv(s) && d in s.dbs && s.dbs[d].lease.Some? && DbFree(s.tasks - {t}, d)
    requires var b := s.dbs[d].lease.value;
             || (k.Disposing? && !k.how.ClosingDown? && k.w == b.worker && k.l == b.lease)
             || (k == Opening(d, s.dbs[d].session, StaleTaken(b.worker, b.lease)) && CallFree(s.tasks, b.worker))
    requires t in s.tasks ==> !Spawns(s.tasks[t])
    ensures Inv(s.(dbs := Unbound(s, d), tasks := s.tasks[t := k]))
  {
    var db := s.dbs[d].(lease := None);
    var dbs := s.dbs[d := db];
    BindingFacts(s, d);
    FreeWithout(s.tasks, t);
    LocksSet(s.tasks, t, k);
    HoldersTake(s.dbs, s.tasks, d, db, t, k);
    HandlesEnd(s.dbs, s.tasks, t);
    HandlesDb(s.dbs, s.tasks - {t}, d, db);
    HandlesSet(dbs, s.tasks, t, k);
    InstallsBump(s.dbs, s.installs, s.pool.nextLid, d, db, s.pool.nextLid);
    ClaimsEnd(s.tasks, s.installs, s.pool.nextLid, t);
    ClaimsSet(s.tasks, s.installs, s.pool.nextLid, t, k);
    SlotsEnd(s.slots, s.dbs, s.tasks, t);
    SlotsSet(s.slots, s.dbs, s.tasks, t, k);
    SlotsDb(s.slots, s.dbs, s.tasks[t := k], d, db);
    ReservationsTasks(s.pool.reserved, s.slots, s.tasks, s.tasks[t := k], t);
    ScansEnd(s.pool.children, s.slots, s.tasks, t);
    ScansSet(s.pool.children, s.slots, s.tasks, t, k);
  }

  /** The lease of acquiring task `t` is installed on slot `w`; the pool lists become those of `p`. */
  lemma KeepInstall(s: State, t: Tid, w: Wid, kind: CallKind, p: PoolInner)
    requires Inv(s) && t in s.tasks && s.tasks[t].Acquires() && s.tasks[t].d in s.dbs
    requires PlacedFor(s.slots, w, s.tasks[t].session, s.tasks[t].open.l)
    requires p.nextLid == s.pool.nextLid
    requires Workers(p.children, p.reserved, p.nextWid, s.slots)
    requires Reservations(p.reserved, s.slots, s.tasks[t := InstalledCall(s.tasks[t], w, kind)])
    requires ScansOk(p.children, s.slots, s.tasks - {t})
    ensures var k := s.tasks[t];
            Inv(s.(pool := p, dbs := Installed(s, k, w), installs := s.installs[k.open.l := Install(k.d, k.open.g, w)],
                   tasks := s.tasks[t := InstalledCall(k, w, kind)]))
  {
    var k := s.tasks[t];
    var c := InstalledCall(k, w, kind);
    var db := s.dbs[k.d].(lease := Some(Lease(w, k.open.l, k.open.g, false)));
    var i := Install(k.d, k.open.g, w);
    Facts(s, t);
    assert TaskHolds(s.tasks, t, k.open.l);
    LocksSet(s.tasks, t, c);
    HoldersInstall(s.dbs, s.tasks, k.d, db, t, c);
    HandlesEnd(s.dbs, s.tasks, t);
    HandlesDb(s.dbs, s.tasks - {t}, k.d, db);
    HandlesSet(s.dbs[k.d := db], s.tasks, t, c);
    InstallsInstall(s.dbs, s.installs, s.pool.nextLid, k, db, i);
    ClaimsInstall(s.dbs, s.tasks, s.installs, s.pool.nextLid, t, i);
    ClaimsSet(s.tasks, s.installs[k.open.l := i], s.pool.nextLid, t, c);
    SlotsEnd(s.slots, s.dbs, s.tasks, t);
    SlotsSet(s.slots, s.dbs, s.tasks, t, c);
    SlotsDb(s.slots, s.dbs, s.tasks[t := c], k.d, db);
    ScansSet(p.children, s.slots, s.tasks, t, c);
  }

  // ---- Opening ----

  lemma NewDatabaseKeeps(s: State, d: DbId, session: Session)
    requires Inv(s) && CanNewDatabase(s, d)
    ensures Inv(NewDatabase(s, d, session))
  {
    var db := Database(session, 0, None);
    HoldersDb(s.dbs, s.tasks, d, db);
    forall t | t in s.tasks && s.tasks[t].Opening? ensures s.tasks[t].d != d { Facts(s, t); }
    HandlesDb(s.dbs, s.tasks, d, db);
    InstallsBump(s.dbs, s.installs, s.pool.nextLid, d, db, s.pool.nextLid);
    SlotsDb(s.slots, s.dbs, s.tasks, d, db);
  }

  lemma OpenReuseKeeps(s: State, t: Tid, d: DbId, kind: CallKind)
    requires Inv(s) && CanOpenReuse(s, t, d, kind)
    ensures Inv(OpenReuse(s, t, d, kind))
  {
    BindingFacts(s, d);
    KeepSet(s, t, Calling(BoundCall(s, d, kind), Queued));
  }

  lemma OpenStaleKeeps(s: State, t: Tid, d: DbId)
    requires Inv(s) && CanOpenStale(s, t, d)
    ensures Inv(OpenStale(s, t, d))
  {
    FreeWithout(s.tasks, t);
    KeepSet(s, t, Opening(d, s.dbs[d].session, StaleWait));
  }

  lemma StaleTakeKeeps(s: State, t: Tid)
    requires Inv(s) && CanStaleTake(s, t)
    ensures Inv(StaleTake(s, t))
  {
    var k := s.tasks[t];
    Facts(s, t);
    KeepTake(s, k.d, t, k.(open := StaleTaken(s.dbs[k.d].lease.value.worker, s.dbs[k.d].lease.value.lease)));
  }

  lemma StaleRetireKeeps(s: State, t: Tid)
    requires Inv(s) && CanStaleRetire(s, t)
    ensures Inv(StaleRetire(s, t))
  {
    var k := s.tasks[t];
    Facts(s, t);
    KeepKillForLease(s, k.open.w, k.open.l);
    KeepSet(KillForLease(s, k.open.w, k.open.l), t, k.(open := NeedLease));
  }

  lemma OpenFreshKeeps(s: State, t: Tid, d: DbId)
    requires Inv(s) && CanOpenFresh(s, t, d)
    ensures Inv(OpenFresh(s, t, d))
  {
    FreeWithout(s.tasks, t);
    KeepSet(s, t, Opening(d, s.dbs[d].session, NeedLease));
  }

  /** A database spends a generation and the pool a lease id. */
  lemma KeepBump(s: State, d: DbId, g: Gen, nextLid: nat)
    requires Inv(s) && d in s.dbs && g >= s.dbs[d].nextGen && nextLid >= s.pool.nextLid
    ensures Inv(s.(dbs := s.dbs[d := s.dbs[d].(nextGen := g)], pool := s.pool.(nextLid := nextLid)))
  {
    var db := s.dbs[d].(nextGen := g);
    if db.lease.Some? { BindingFacts(s, d); }
    HoldersDb(s.dbs, s.tasks, d, db);
    HandlesDb(s.dbs, s.tasks, d, db);
    InstallsBump(s.dbs, s.installs, s.pool.nextLid, d, db, nextLid);
    ClaimsBump(s.tasks, s.installs, s.pool.nextLid, nextLid);
    SlotsDb(s.slots, s.dbs, s.tasks, d, db);
  }

  /** An opener starts to acquire with identifiers that nobody has. */
  lemma KeepAcquire(s: State, t: Tid, g: Gen, l: Lid)
    requires Inv(s) && t in s.tasks && s.tasks[t].Opening? && s.tasks[t].open.NeedLease? && s.tasks[t].d in s.dbs
    requires g <= s.dbs[s.tasks[t].d].nextGen && l <= s.pool.nextLid && l !in s.installs
    requires forall i :: i in s.installs && s.installs[i].db == s.tasks[t].d ==> s.installs[i].generation < g
    requires UniqueHolders(s.dbs, s.tasks[t := s.tasks[t].(open := Acquiring(g, l, Ready))])
    ensures Inv(SetTask(s, t, s.tasks[t].(open := Acquiring(g, l, Ready))))
  {
    var a := s.tasks[t].(open := Acquiring(g, l, Ready));
    Facts(s, t);
    LocksSet(s.tasks, t, a);
    HandlesEnd(s.dbs, s.tasks, t);
    HandlesSet(s.dbs, s.tasks, t, a);
    ClaimsEnd(s.tasks, s.installs, s.pool.nextLid, t);
    ClaimsSet(s.tasks, s.installs, s.pool.nextLid, t, a);
    SlotsEnd(s.slots, s.dbs, s.tasks, t);
    SlotsSet(s.slots, s.dbs, s.tasks, t, a);
    ReservationsTasks(s.pool.reserved, s.slots, s.tasks, s.tasks[t := a], t);
    ScansEnd(s.pool.children, s.slots, s.tasks, t);
    ScansSet(s.pool.children, s.slots, s.tasks, t, a);
  }

  lemma DrawKeeps(s: State, t: Tid)
    requires Inv(s) && CanDraw(s, t)
    ensures Inv(Draw(s, t))
  {
    var k := s.tasks[t];
    var g, l := s.dbs[k.d].nextGen + 1, s.pool.nextLid + 1;
    var s1 := s.(dbs := s.dbs[k.d := s.dbs[k.d].(nextGen := g)], pool := s.pool.(nextLid := l));
    DrawHolders(s, t);
    KeepBump(s, k.d, g, l);
    assert InstallAt(s.dbs, s.installs, s.pool.nextLid, l);
    forall i | i in s.installs && s.installs[i].db == k.d ensures s.installs[i].generation < g {
      assert InstallAt(s.dbs, s.installs, s.pool.nextLid, i);
    }
    KeepAcquire(s1, t, g, l);
    assert Draw(s, t) == SetTask(s1, t, k.(open := Acquiring(g, l, Ready)));
  }

  lemma DrawHolders(s: State, t: Tid)
    requires Inv(s) && CanDraw(s, t)
    ensures UniqueHolders(Draw(s, t).dbs, Draw(s, t).tasks)
  {
    var k := s.tasks[t];
    var a := Draw(s, t).tasks[t];
    Facts(s, t);
    HoldersDraw(s.dbs, s.tasks, s.installs, s.pool.nextLid, t, a);
    HoldersDb(s.dbs, s.tasks[t := a], k.d, Draw(s, t).dbs[k.d]);
  }

  lemma DrawFailKeeps(s: State, t: Tid)
    requires Inv(s) && CanDrawFail(s, t)
    ensures Inv(DrawFail(s, t))
  {
    var d := s.tasks[t].d;
    var g := DrawFail(s, t).dbs[d].nextGen;
    KeepBump(s, d, g, s.pool.nextLid);
    var s1 := s.(dbs := s.dbs[d := s.dbs[d].(nextGen := g)], pool := s.pool.(nextLid := s.pool.nextLid));
    KeepEnd(s1, t);
    assert DrawFail(s, t) == EndTask(s1, t);
  }

  // ---- Acquiring ----

  lemma RegisterKeeps(s: State, t: Tid)
    requires Inv(s) && CanRegister(s, t)
    ensures Inv(Register(s, t))
  {
    Facts(s, t);
    KeepSet(s, t, At(s.tasks[t], Registered(s.pool.notifications, s.losses.deaths)));
  }

  lemma ScanStartKeeps(s: State, t: Tid)
    requires Inv(s) && CanScanStart(s, t)
    ensures Inv(ScanStart(s, t))
  {
    Facts(s, t);
    FreeWithout(s.tasks, t);
    KeepSet(s, t, ScanStart(s, t).tasks[t]);
  }

  lemma VisitBusyKeeps(s: State, t: Tid, w: Wid)
    requires Inv(s) && CanVisitBusy(s, t, w)
    ensures Inv(VisitBusy(s, t, w))
  {
    Facts(s, t);
    KeepSet(s, t, VisitBusy(s, t, w).tasks[t]);
  }

  lemma VisitIdleKeeps(s: State, t: Tid, w: Wid, kind: CallKind)
    requires Inv(s) && CanVisitIdle(s, t, w, kind)
    ensures Inv(VisitIdle(s, t, w, kind))
  {
    var k := s.tasks[t];
    var slot := s.slots[w].(state := Leased(k.session, k.open.l));
    var s1 := s.(slots := s.slots[w := slot]);
    assert WorkerAt(s.pool.children, s.pool.reserved, s.pool.nextWid, s.slots, w);
    KeepSlot(s, w, slot);
    ReservationsTasks(s.pool.reserved, s1.slots, s.tasks, s.tasks[t := InstalledCall(k, w, kind)], t);
    ScansEnd(s.pool.children, s1.slots, s.tasks, t);
    KeepInstall(s1, t, w, kind, s.pool);
  }

  /** An idle child is leased, or a slot loses its transport. */
  lemma KeepSlot(s: State, w: Wid, slot: Slot)
    requires Inv(s) && w in s.slots
    requires || (s.slots[w].state == Idle && slot.state != Dead && w !in s.pool.reserved)
             || slot == s.slots[w].(transport := false)
    ensures Inv(s.(slots := s.slots[w := slot]))
  {
    assert LossAt(s.slots, s.losses, w);
    SlotsHarmless(s.slots, s.dbs, s.tasks, w, slot);
    WorkersSlot(s.pool.children, s.pool.reserved, s.pool.nextWid, s.slots, w, slot);
    LossesSlot(s.slots, s.losses, w, slot);
    ReservationsSlot(s.pool.reserved, s.slots, s.tasks, w, slot);
    ScansSlot(s.pool.children, s.slots, s.tasks, w, slot);
  }

  /** Dead children leave the list while nobody else scans it. */
  lemma WorkersPrune(s: State, dead: set<Wid>)
    requires Inv(s) && (forall w :: w in dead ==> w in s.slots && s.slots[w].state == Dead)
    ensures Workers(s.pool.children - dead, s.pool.reserved, s.pool.nextWid, s.slots)
  {
    var children := s.pool.children - dead;
    forall w ensures WorkerAt(children, s.pool.reserved, s.pool.nextWid, s.slots, w) {
      assert WorkerAt(s.pool.children, s.pool.reserved, s.pool.nextWid, s.slots, w);
    }
  }

  /** The scan ends, dead children leave the list, its scanner goes on to `stage`. */
  lemma KeepPruneTo(s: State, t: Tid, stage: AcquireStage)
    requires Inv(s) && t in s.tasks && s.tasks[t].Scans() && (stage.Waiting? || stage.Ready?)
    ensures Inv(s.(pool := s.pool.(children := s.pool.children - s.tasks[t].open.at.found),
                   tasks := s.tasks[t := At(s.tasks[t], stage)]))
  {
    var k := At(s.tasks[t], stage);
    Facts(s, t);
    KeepSet(s, t, k);
    WorkersPrune(s, s.tasks[t].open.at.found);
    ScansIdle(s.pool.children - s.tasks[t].open.at.found, s.slots, s.tasks - {t});
    ScansSet(s.pool.children - s.tasks[t].open.at.found, s.slots, s.tasks, t, k);
  }

  lemma ScanWaitKeeps(s: State, t: Tid)
    requires Inv(s) && CanScanWait(s, t)
    ensures Inv(ScanWait(s, t))
  {
    KeepPruneTo(s, t, Waiting(s.tasks[t].open.at.seen, s.tasks[t].open.at.deathsSeen));
  }

  lemma ScanFailKeeps(s: State, t: Tid)
    requires Inv(s) && CanScanFail(s, t)
    ensures Inv(ScanFail(s, t))
  {
    Facts(s, t);
    KeepEnd(s, t);
    WorkersPrune(s, s.tasks[t].open.at.found);
    ScansIdle(s.pool.children - s.tasks[t].open.at.found, s.slots, s.tasks - {t});
  }

  lemma ScanReserveKeeps(s: State, t: Tid)
    requires Inv(s) && CanScanReserve(s, t)
    ensures Inv(ScanReserve(s, t))
  {
    KeepPruneTo(s, t, Ready);
    var s1 := s.(pool := s.pool.(children := s.pool.children - s.tasks[t].open.at.found),
                 tasks := s.tasks[t := At(s.tasks[t], Ready)]);
    KeepReserve(s1, t);
    assert s1.tasks[t := At(s1.tasks[t], Spawning(s.pool.nextWid))] == ScanReserve(s, t).tasks;
  }

  lemma KeepReserve(s: State, t: Tid)
    requires Inv(s) && t in s.tasks && s.tasks[t].Acquires() && s.tasks[t].open.at.Ready?
    ensures Inv(s.(pool := s.pool.(nextWid := s.pool.nextWid + 1,
                                   reserved := s.pool.reserved[s.pool.nextWid := StartingUp(Opener(t))]),
                   tasks := s.tasks[t := At(s.tasks[t], Spawning(s.pool.nextWid))]))
  {
    var w := s.pool.nextWid;
    var k := At(s.tasks[t], Spawning(w));
    Facts(s, t);
    LocksSet(s.tasks, t, k);
    HoldersSame(s.dbs, s.tasks, t, k);
    HandlesEnd(s.dbs, s.tasks, t);
    HandlesSet(s.dbs, s.tasks, t, k);
    ClaimsEnd(s.tasks, s.installs, s.pool.nextLid, t);
    ClaimsSet(s.tasks, s.installs, s.pool.nextLid, t, k);
    SlotsEnd(s.slots, s.dbs, s.tasks, t);
    SlotsSet(s.slots, s.dbs, s.tasks, t, k);
    WorkersReserve(s.pool.children, s.pool.reserved, w, s.slots, StartingUp(Opener(t)));
    ReservationsAdd(s.pool.reserved, s.slots, s.tasks, w, Opener(t), s.tasks[t := k]);
    ScansEnd(s.pool.children, s.slots, s.tasks, t);
    ScansSet(s.pool.children, s.slots, s.tasks, t, k);
  }

  lemma WorkersReserve(children: set<Wid>, reserved: map<Wid, Reservation>, nextWid: nat, slots: map<Wid, Slot>, r: Reservation)
    requires Workers(children, reserved, nextWid, slots)
    ensures nextWid !in reserved && nextWid !in slots
    ensures Workers(children, reserved[nextWid := r], nextWid + 1, slots)
  {
    var next, above := reserved[nextWid := r], nextWid + 1;
    assert WorkerAt(children, reserved, nextWid, slots, nextWid);
    forall w ensures WorkerAt(children, next, above, slots, w) { assert WorkerAt(children, reserved, nextWid, slots, w); }
  }

  lemma WakeKeeps(s: State, t: Tid)
    requires Inv(s) && CanWake(s, t)
    ensures Inv(Wake(s, t))
  {
    Facts(s, t);
    KeepSet(s, t, At(s.tasks[t], Ready));
  }

  // ---- Startups ----

  lemma SpawnDoneKeeps(s: State, w: Wid)
    requires Inv(s) && CanSpawnDone(s, w)
    ensures Inv(SpawnDone(s, w))
  {
    var slot := Slot(InitialState(s, w), true, None, None);
    var s1 := SpawnDone(s, w);
    assert ReservationAt(s.pool.reserved, s.slots, s.tasks, w);
    SlotsHarmless(s.slots, s.dbs, s.tasks, w, slot);
    ScansSlot(s.pool.children, s.slots, s.tasks, w, slot);
    LossesSlot(s.slots, s.losses, w, slot);
    forall x ensures WorkerAt(s1.pool.children, s1.pool.reserved, s1.pool.nextWid, s1.slots, x) {
      assert WorkerAt(s.pool.children, s.pool.reserved, s.pool.nextWid, s.slots, x);
    }
    forall x ensures ReservationAt(s1.pool.reserved, s1.slots, s1.tasks, x) {
      assert ReservationAt(s.pool.reserved, s.slots, s.tasks, x);
    }
    forall t ensures SpawnerAt(s1.pool.reserved, s1.tasks, t) { assert SpawnerAt(s.pool.reserved, s.tasks, t); }
  }

  /** A reservation is abandoned and the opener that waited for it, if any, ends. */
  lemma KeepAbandon(s: State, w: Wid)
    requires Inv(s) && w in s.pool.reserved && !s.pool.reserved[w].Abandoned?
    ensures Inv(GiveUp(s, w))
  {
    var s1 := GiveUp(s, w);
    match s.pool.reserved[w].starter {
      case Opener(t) =>
        LocksEnd(s.tasks, t);
        HoldersEnd(s.dbs, s.tasks, t);
        HandlesEnd(s.dbs, s.tasks, t);
        ClaimsEnd(s.tasks, s.installs, s.pool.nextLid, t);
        SlotsEnd(s.slots, s.dbs, s.tasks, t);
        ScansEnd(s.pool.children, s.slots, s.tasks, t);
      case Replenisher =>
    }
    ReservationsAbandon(s.pool.reserved, s.slots, s.tasks, w, s1.tasks);
    forall x ensures WorkerAt(s1.pool.children, s1.pool.reserved, s1.pool.nextWid, s1.slots, x) {
      assert WorkerAt(s.pool.children, s.pool.reserved, s.pool.nextWid, s.slots, x);
    }
  }

  lemma GiveUpKeeps(s: State, w: Wid)
    requires Inv(s) && CanGiveUp(s, w)
    ensures Inv(GiveUp(s, w))
  {
    KeepAbandon(s, w);
  }

  /** A finished reservation leaves the pool list. */
  lemma KeepFinish(s: State, w: Wid, children: set<Wid>)
    requires Inv(s) && w in s.pool.reserved && PoolFree(s.tasks)
    requires s.pool.reserved[w].Abandoned? || s.pool.reserved[w] == Started(Replenisher)
    requires || (children == s.pool.children + {w} && w in s.slots)
             || (children == s.pool.children && (w in s.slots ==> s.slots[w].state == Dead))
    ensures Inv(s.(pool := Notify(s.pool).(children := children, reserved := s.pool.reserved - {w})))
  {
    var reserved := s.pool.reserved - {w};
    ScansIdle(children, s.slots, s.tasks);
    forall x ensures WorkerAt(children, reserved, s.pool.nextWid, s.slots, x) {
      assert WorkerAt(s.pool.children, s.pool.reserved, s.pool.nextWid, s.slots, x);
    }
    forall x ensures ReservationAt(reserved, s.slots, s.tasks, x) { assert ReservationAt(s.pool.reserved, s.slots, s.tasks, x); }
    forall t ensures SpawnerAt(reserved, s.tasks, t) { assert SpawnerAt(s.pool.reserved, s.tasks, t); }
  }

  lemma InstallIdleKeeps(s: State, w: Wid)
    requires Inv(s) && CanInstallIdle(s, w)
    ensures Inv(InstallIdle(s, w))
  {
    assert ReservationAt(s.pool.reserved, s.slots, s.tasks, w);
    KeepFinish(s, w, s.pool.children + {w});
  }

  lemma DropReservationKeeps(s: State, w: Wid)
    requires Inv(s) && CanDropReservation(s, w)
    ensures Inv(DropReservation(s, w))
  {
    KeepFinish(s, w, s.pool.children);
  }

  lemma InstallLeasedKeeps(s: State, w: Wid, kind: CallKind)
    requires Inv(s) && CanInstallLeased(s, w, kind)
    ensures Inv(InstallLeased(s, w, kind))
  {
    var t := s.pool.reserved[w].starter.task;
    var p := Notify(s.pool).(children := s.pool.children + {w}, reserved := s.pool.reserved - {w});
    var next := s.tasks[t := InstalledCall(s.tasks[t], w, kind)];
    assert ReservationAt(s.pool.reserved, s.slots, s.tasks, w);
    forall x ensures WorkerAt(p.children, p.reserved, p.nextWid, s.slots, x) {
      assert WorkerAt(s.pool.children, s.pool.reserved, s.pool.nextWid, s.slots, x);
    }
    forall x ensures ReservationAt(p.reserved, s.slots, next, x) { assert ReservationAt(s.pool.reserved, s.slots, s.tasks, x); }
    forall u ensures SpawnerAt(p.reserved, next, u) { assert SpawnerAt(s.pool.reserved, s.tasks, u); }
    FreeWithout(s.tasks, t);
    ScansIdle(p.children, s.slots, s.tasks - {t});
    KeepInstall(s, t, w, kind, p);
  }

  // ---- Calls ----

  lemma CallStartKeeps(s: State, t: Tid, d: DbId, expected: Option<Gen>, kind: CallKind)
    requires Inv(s) && CanCallStart(s, t, d, expected, kind)
    ensures Inv(CallStart(s, t, d, expected, kind))
  {
    BindingFacts(s, d);
    KeepSet(s, t, Calling(BoundCall(s, d, kind), Queued));
  }

  lemma LockCallKeeps(s: State, t: Tid)
    requires Inv(s) && CanLockCall(s, t)
    ensures Inv(LockCall(s, t))
  {
    Facts(s, t);
    FreeWithout(s.tasks, t);
    KeepSet(s, t, s.tasks[t].(call := Locked));
  }

  /** A call moves to a stage without locks. */
  lemma KeepCallStage(s: State, t: Tid, stage: CallStage)
    requires Inv(s) && t in s.tasks && s.tasks[t].Calling? && !stage.Locked? && !stage.Running?
    ensures Inv(SetTask(s, t, s.tasks[t].(call := stage)))
  {
    Facts(s, t);
    KeepSet(s, t, s.tasks[t].(call := stage));
  }

  lemma RejectCallKeeps(s: State, t: Tid)
    requires Inv(s) && CanRejectCall(s, t)
    ensures Inv(RejectCall(s, t))
  {
    KeepCallStage(s, t, RejectCall(s, t).tasks[t].call);
  }

  /** The holder of a call lock rewrites path and snapshot and moves to `k`. */
  lemma KeepRewrite(s: State, t: Tid, k: Task, slot: Slot)
    requires Inv(s) && t in s.tasks && s.tasks[t].Calling? && k.Calling? && k.c == s.tasks[t].c
    requires k.c.worker in s.slots && s.tasks[t].HoldsCall(k.c.worker)
    requires s.slots[k.c.worker].state != Dead && slot.state == s.slots[k.c.worker].state
    requires SlotOk(s.slots[k.c.worker := slot], k)
    ensures Inv(s.(slots := s.slots[k.c.worker := slot], tasks := s.tasks[t := k]))
  {
    var w := k.c.worker;
    Facts(s, t);
    LocksSet(s.tasks, t, k);
    HoldersSame(s.dbs, s.tasks, t, k);
    HandlesEnd(s.dbs, s.tasks, t);
    HandlesSet(s.dbs, s.tasks, t, k);
    ClaimsEnd(s.tasks, s.installs, s.pool.nextLid, t);
    ClaimsSet(s.tasks, s.installs, s.pool.nextLid, t, k);
    SlotsRewrite(s.slots, s.dbs, s.tasks, w, slot, t);
    SlotsSet(s.slots[w := slot], s.dbs, s.tasks, t, k);
    WorkersSlot(s.pool.children, s.pool.reserved, s.pool.nextWid, s.slots, w, slot);
    LossesSlot(s.slots, s.losses, w, slot);
    ReservationsTasks(s.pool.reserved, s.slots, s.tasks, s.tasks[t := k], t);
    ReservationsSlot(s.pool.reserved, s.slots, s.tasks[t := k], w, slot);
    ScansEnd(s.pool.children, s.slots, s.tasks, t);
    ScansSet(s.pool.children, s.slots, s.tasks, t, k);
    ScansSlot(s.pool.children, s.slots, s.tasks[t := k], w, slot);
  }

  lemma SendKeeps(s: State, t: Tid, ok: bool)
    requires Inv(s) && CanSend(s, t)
    ensures Inv(Send(s, t, ok))
  {
    var k := s.tasks[t];
    var slot := s.slots[k.c.worker];
    if ok && k.c.kind.Open? {
      KeepRewrite(s, t, k.(call := Running(true, slot.path)), slot.(path := Some(k.c.kind.target), artifacts := k.c.kind.snapshot));
    } else {
      Facts(s, t);
      KeepSet(s, t, k.(call := Running(ok, None)));
    }
  }

  lemma RetireCallKeeps(s: State, t: Tid, cause: RetireCause)
    requires Inv(s) && CanRetireCall(s, t, cause)
    ensures Inv(RetireCall(s, t, cause))
  {
    var k := s.tasks[t];
    KeepKillForLease(s, k.c.worker, k.c.lease);
    KeepCallStage(KillForLease(s, k.c.worker, k.c.lease), t, Failed(RetireError(cause)));
  }

  lemma SettleCallKeeps(s: State, t: Tid, reply: Reply)
    requires Inv(s) && CanSettleCall(s, t, reply)
    ensures Inv(SettleCall(s, t, reply))
  {
    if StartRetains(s.tasks[t].c.kind.tool, reply) {
      KeepCallStage(s, t, Pinning(true));
    } else if StopSucceeds(s.tasks[t].c.kind.tool, reply) {
      KeepCallStage(s, t, Pinning(false));
    } else {
      KeepEnd(s, t);
    }
  }

  lemma SettleOpenKeeps(s: State, t: Tid, reply: Reply)
    requires Inv(s) && CanSettleOpen(s, t, reply)
    ensures Inv(SettleOpen(s, t, reply))
  {
    var k := s.tasks[t];
    var w := k.c.worker;
    if !s.slots[w].state.BelongsTo(k.c.lease) {
      KeepCallStage(s, t, Failed(DatabaseReplaced));
    } else {
      var slot := s.slots[w].(artifacts := None, path := SettledPath(s.slots[w], k.call.previous, reply));
      var failed := k.(call := Failed(ReplyError(reply)));
      KeepRewrite(s, t, failed, slot);
      if reply.Success? && reply.parsed {
        var s1 := s.(slots := s.slots[w := slot], tasks := s.tasks[t := failed]);
        KeepEnd(s1, t);
        assert EndTask(s1, t).tasks == SettleOpen(s, t, reply).tasks;
      }
    }
  }

  /** A lease that matches a call's worker and generation is the very lease that
      served the call. */
  lemma SameLeaseIsTheLease(s: State, t: Tid)
    requires Inv(s) && t in s.tasks && s.tasks[t].Calling? && SameGeneration(s, s.tasks[t].c)
    ensures var b, c := s.dbs[s.tasks[t].c.db].lease.value, s.tasks[t].c;
            b.lease == c.lease && b.worker == c.worker
  {
    var c := s.tasks[t].c;
    assert ClaimAt(s.tasks, s.installs, s.pool.nextLid, t) && BoundAt(s.dbs, s.installs, c.db);
    assert InstallsApart(s.installs, c.lease, s.dbs[c.db].lease.value.lease);
  }

  /** The caller of a failed call clears its own lease or none. */
  lemma UnbindKeeps(s: State, t: Tid)
    requires Inv(s) && CanUnbind(s, t)
    ensures Inv(Unbind(s, t))
    ensures Unbind(s, t).dbs == s.dbs
            || (DbHolds(s.dbs, s.tasks[t].c.db, s.tasks[t].c.lease) && Unbind(s, t).dbs == Unbound(s, s.tasks[t].c.db))
  {
    var c, e := s.tasks[t].c, s.tasks[t].call.error;
    if SameGeneration(s, c) { SameLeaseIsTheLease(s, t); }
    if c.kind.Open? && OpenErrorReleasesLease(c.kind.freshLease, e) && SameGeneration(s, c) {
      var b := s.dbs[c.db].lease.value;
      FreeWithout(s.tasks, t);
      KeepTake(s, c.db, t, Disposing(b.worker, b.lease, Releasing));
    } else if c.kind.Ordinary? && CallErrorClearsLease(e) && SameLease(s, c) {
      KeepUnbind(s, c.db, t);
    } else {
      KeepEnd(s, t);
    }
  }

  /** A binding is cleared and the caller that cleared it ends. */
  lemma KeepUnbind(s: State, d: DbId, t: Tid)
    requires Inv(s) && d in s.dbs && DbFree(s.tasks, d) && t in s.tasks && !Spawns(s.tasks[t])
    ensures Inv(s.(dbs := Unbound(s, d), tasks := s.tasks - {t}))
  {
    KeepEnd(s, t);
    FreeWithout(s.tasks, t);
    KeepDb(EndTask(s, t), d, s.dbs[d].(lease := None));
  }

  /** A binding that no opener holds is cleared, or only changes its pin. */
  lemma KeepDb(s: State, d: DbId, db: Database)
    requires Inv(s) && d in s.dbs && DbFree(s.tasks, d)
    requires db == s.dbs[d].(lease := db.lease) && SameBinding(s.dbs[d].lease, db.lease)
    ensures Inv(s.(dbs := s.dbs[d := db]))
  {
    if db.lease.Some? { BindingFacts(s, d); }
    HoldersDb(s.dbs, s.tasks, d, db);
    HandlesDb(s.dbs, s.tasks, d, db);
    InstallsBump(s.dbs, s.installs, s.pool.nextLid, d, db, s.pool.nextLid);
    SlotsDb(s.slots, s.dbs, s.tasks, d, db);
  }

  lemma PinKeeps(s: State, t: Tid)
    requires Inv(s) && CanPin(s, t)
    ensures Inv(Pin(s, t))
  {
    var c := s.tasks[t].c;
    KeepEnd(s, t);
    if SameLease(s, c) {
      var b := s.dbs[c.db].lease.value;
      FreeWithout(s.tasks, t);
      KeepDb(EndTask(s, t), c.db, s.dbs[c.db].(lease := Some(b.(debugPinned := s.tasks[t].call.pinned))));
    }
  }

  // ---- Giving leases back ----

  lemma CloseKeeps(s: State, t: Tid, d: DbId, expected: Option<Gen>)
    requires Inv(s) && CanClose(s, t, d, expected)
    ensures Inv(Close(s, t, d, expected))
  {
    FreeWithout(s.tasks, t);
    KeepTake(s, d, t, Disposing(s.dbs[d].lease.value.worker, s.dbs[d].lease.value.lease, Releasing));
  }

  lemma ReapTakeKeeps(s: State, t: Tid, d: DbId)
    requires Inv(s) && CanReapTake(s, t, d)
    ensures Inv(ReapTake(s, t, d))
  {
    FreeWithout(s.tasks, t);
    KeepTake(s, d, t, Disposing(s.dbs[d].lease.value.worker, s.dbs[d].lease.value.lease, Reaping));
  }

  /** The holder of a lease, done with its slot, ends. */
  lemma KeepGiveBack(s: State, t: Tid, slot: Slot)
    requires Inv(s) && t in s.tasks && s.tasks[t].Disposing? && s.tasks[t].w in s.slots
    requires s.slots[s.tasks[t].w].state.BelongsTo(s.tasks[t].l) && slot.state != Dead
    requires s.tasks[t].HoldsCall(s.tasks[t].w)
    ensures Inv(s.(slots := s.slots[s.tasks[t].w := slot], tasks := s.tasks - {t}))
  {
    var k := s.tasks[t];
    Facts(s, t);
    assert TaskHolds(s.tasks, t, k.l);
    NotReserved(s, t);
    SlotsByHolder(s.slots, s.dbs, s.tasks, k.w, slot, t, k.l);
    KeepEnd(s, t);
    WorkersSlot(s.pool.children, s.pool.reserved, s.pool.nextWid, s.slots, k.w, slot);
    LossesSlot(s.slots, s.losses, k.w, slot);
    ReservationsSlot(s.pool.reserved, s.slots, s.tasks - {t}, k.w, slot);
    ScansSlot(s.pool.children, s.slots, s.tasks - {t}, k.w, slot);
  }

  /** The holder of a lease starts to close its slot. */
  lemma KeepStartClosing(s: State, t: Tid)
    requires Inv(s) && t in s.tasks && s.tasks[t].Disposing? && s.tasks[t].w in s.slots
    requires s.slots[s.tasks[t].w].state.BelongsTo(s.tasks[t].l) && CallFree(s.tasks, s.tasks[t].w)
    ensures Inv(s.(slots := s.slots[s.tasks[t].w := s.slots[s.tasks[t].w].(state := ChildState.Closing(s.tasks[t].l))],
                   tasks := s.tasks[t := s.tasks[t].(how := ClosingDown)]))
  {
    var k := s.tasks[t];
    var closing := k.(how := ClosingDown);
    var slot := s.slots[k.w].(state := ChildState.Closing(k.l));
    Facts(s, t);
    FreeWithout(s.tasks, t);
    assert TaskHolds(s.tasks, t, k.l) && ClaimAt(s.tasks, s.installs, s.pool.nextLid, t);
    NotReserved(s, t);
    SlotsByHolder(s.slots, s.dbs, s.tasks, k.w, slot, t, k.l);
    SlotsSet(s.slots[k.w := slot], s.dbs, s.tasks, t, closing);
    LocksSet(s.tasks, t, closing);
    HoldersSame(s.dbs, s.tasks, t, closing);
    HandlesEnd(s.dbs, s.tasks, t);
    HandlesSet(s.dbs, s.tasks, t, closing);
    ClaimsEnd(s.tasks, s.installs, s.pool.nextLid, t);
    ClaimsSet(s.tasks, s.installs, s.pool.nextLid, t, closing);
    WorkersSlot(s.pool.children, s.pool.reserved, s.pool.nextWid, s.slots, k.w, slot);
    LossesSlot(s.slots, s.losses, k.w, slot);
    ReservationsTasks(s.pool.reserved, s.slots, s.tasks, s.tasks[t := closing], t);
    ReservationsSlot(s.pool.reserved, s.slots, s.tasks[t := closing], k.w, slot);
    ScansEnd(s.pool.children, s.slots, s.tasks, t);
    ScansSet(s.pool.children, s.slots, s.tasks, t, closing);
    ScansSlot(s.pool.children, s.slots, s.tasks[t := closing], k.w, slot);
  }

  /** A slot under an installed lease is not a reservation that anybody waits for. */
  lemma NotReserved(s: State, t: Tid)
    requires Inv(s) && t in s.tasks && s.tasks[t].Disposing? && s.tasks[t].w in s.slots
    requires s.slots[s.tasks[t].w].state.BelongsTo(s.tasks[t].l)
    ensures s.tasks[t].w in s.pool.reserved ==> s.pool.reserved[s.tasks[t].w].Abandoned?
  {
    var w := s.tasks[t].w;
    assert ReservationAt(s.pool.reserved, s.slots, s.tasks, w);
    if w in s.pool.reserved && s.pool.reserved[w].Started? && s.pool.reserved[w].starter.Opener? {
      var u := s.pool.reserved[w].starter.task;
      assert TasksApart(s.tasks, t, u) && TaskHolds(s.tasks, t, s.tasks[t].l) && TaskHolds(s.tasks, u, s.tasks[t].l);
    }
  }

  /** A release starts to close its own slot, leased under its own lease, and holds
      the call lock from then on; otherwise it changes no slot. */
  lemma ReleaseLockKeeps(s: State, t: Tid)
    requires Inv(s) && CanReleaseLock(s, t)
    ensures Inv(ReleaseLock(s, t))
    ensures var s1, w, l := ReleaseLock(s, t), s.tasks[t].w, s.tasks[t].l;
            || s1 == EndTask(s, t)
            || (&& s.slots[w].state.Leased? && s.slots[w].state.lease == l
                && s1.slots == s.slots[w := s.slots[w].(state := ChildState.Closing(l))]
                && t in s1.tasks && s1.tasks[t].HoldsCall(w))
  {
    Facts(s, t);
    if s.slots[s.tasks[t].w].state.BelongsTo(s.tasks[t].l) {
      KeepStartClosing(s, t);
    } else {
      KeepEnd(s, t);
    }
  }

  lemma ReleaseRetireKeeps(s: State, t: Tid)
    requires Inv(s) && InRelease(s, t)
    ensures Inv(ReleaseRetire(s, t))
  {
    KeepKillForLease(s, s.tasks[t].w, s.tasks[t].l);
    KeepEnd(KillForLease(s, s.tasks[t].w, s.tasks[t].l), t);
  }

  /** The unchecked write to Idle: the slot can only be dead or closing under this lease. */
  lemma ReleaseIdleKeeps(s: State, t: Tid)
    requires Inv(s) && InRelease(s, t)
    ensures s.slots[s.tasks[t].w].state == Dead || s.slots[s.tasks[t].w].state == ChildState.Closing(s.tasks[t].l)
    ensures Inv(ReleaseIdle(s, t))
  {
    var k := s.tasks[t];
    Facts(s, t);
    if s.slots[k.w].state == Dead {
      KeepEnd(s, t);
    } else {
      KeepGiveBack(s, t, s.slots[k.w].(state := Idle, path := None, artifacts := None));
    }
  }

  lemma ReapMarkKeeps(s: State, t: Tid)
    requires Inv(s) && CanReapMark(s, t)
    ensures Inv(ReapMark(s, t))
  {
    if s.slots[s.tasks[t].w].state != Dead {
      KeepKill(s, s.tasks[t].w);
      KeepEnd(Kill(s, s.tasks[t].w), t);
    } else {
      KeepEnd(s, t);
    }
  }

  lemma GuardRetireKeeps(s: State, w: Wid, l: Lid)
    requires Inv(s) && CanGuardRetire(s, w, l)
    ensures Inv(GuardRetire(s, w, l))
  {
    KeepKillForLease(s, w, l);
    var s1 := KillForLease(s, w, l);
    KeepLosses(s1, s1.losses.(retiring := s1.losses.retiring - {(w, l)}));
  }

  /** Pending retirements come and go; what was handed over stays. */
  lemma KeepLosses(s: State, losses: Losses)
    requires Inv(s) && losses.handed == s.losses.handed && losses.forgetting <= s.losses.forgetting
    requires forall w, l :: (w, l) in losses.retiring ==> (w, l) in s.losses.retiring || w in s.slots
    ensures Inv(s.(losses := losses))
  {
    forall w ensures LossAt(s.slots, losses, w) { assert LossAt(s.slots, s.losses, w); }
  }

  // ---- Pool bookkeeping ----

  lemma ForgetKeeps(s: State, w: Wid)
    requires Inv(s) && CanForget(s, w)
    ensures Inv(Forget(s, w))
  {
    KeepLosses(s, s.losses.(forgetting := s.losses.forgetting - {w}));
    assert LossAt(s.slots, s.losses, w);
    WorkersPrune(s, {w});
    ScansIdle(s.pool.children - {w}, s.slots, s.tasks);
  }

  lemma ForgetLostKeeps(s: State, w: Wid)
    requires Inv(s) && CanForgetLost(s, w)
    ensures Inv(ForgetLost(s, w))
  {
    KeepLosses(s, s.losses.(forgetting := s.losses.forgetting - {w}));
  }

  lemma {:induction false} RefillKeeps(s: State)
    requires Inv(s)
    ensures Inv(s.(pool := Refill(s.cfg, s.pool)))
    decreases s.cfg.maxWid - s.pool.nextWid
  {
    var p := s.pool;
    if !p.shuttingDown && |p.reserved| + |p.children| < s.cfg.Floor() && p.nextWid < s.cfg.maxWid {
      var q := p.(reserved := p.reserved[p.nextWid := StartingUp(Replenisher)], nextWid := p.nextWid + 1);
      KeepRefill(s, q);
      RefillKeeps(s.(pool := q));
      assert Refill(s.cfg, q) == Refill(s.cfg, p);
    }
  }

  lemma KeepRefill(s: State, q: PoolInner)
    requires Inv(s)
    requires q == s.pool.(reserved := s.pool.reserved[s.pool.nextWid := StartingUp(Replenisher)], nextWid := s.pool.nextWid + 1)
    ensures Inv(s.(pool := q))
  {
    WorkersReserve(s.pool.children, s.pool.reserved, s.pool.nextWid, s.slots, StartingUp(Replenisher));
    ReservationsAdd(s.pool.reserved, s.slots, s.tasks, s.pool.nextWid, Replenisher, s.tasks);
  }

  lemma ReplenishKeeps(s: State)
    requires Inv(s) && CanReplenish(s)
    ensures Inv(Replenish(s))
  {
    RefillKeeps(s.(pool := s.pool.(replenishDue := false)));
  }

  lemma ShutBeginKeeps(s: State)
    requires Inv(s) && CanShutBegin(s)
    ensures Inv(ShutBegin(s))
  {
  }

  lemma ShutSnapshotKeeps(s: State)
    requires Inv(s) && CanShutSnapshot(s)
    ensures Inv(ShutSnapshot(s))
  {
  }

  lemma ShutForgetKeeps(s: State, w: Wid)
    requires Inv(s) && CanShutForget(s, w)
    ensures Inv(ShutForget(s, w))
  {
    if w in s.slots {
      WorkersPrune(s, {w});
    } else {
      assert WorkerAt(s.pool.children, s.pool.reserved, s.pool.nextWid, s.slots, w);
      assert s.pool.children - {w} == s.pool.children;
    }
    ScansIdle(s.pool.children - {w}, s.slots, s.tasks);
  }

  lemma ShutDoneKeeps(s: State)
    requires Inv(s) && CanShutDone(s)
    ensures Inv(ShutDone(s))
  {
  }

  lemma LoseTransportKeeps(s: State, w: Wid)
    requires Inv(s) && CanLoseTransport(s, w)
    ensures Inv(LoseTransport(s, w))
  {
    KeepSlot(s, w, s.slots[w].(transport := false));
  }

  // ---- Dropped futures ----

  /** What is left of a dropped future: its locks are free, and a release, a running
      call or a startup leaves its cleanup behind. */
  ghost predicate Dropped(k: Task, s1: State) {
    && (k.Opening? ==> DbFree(s1.tasks, k.d))
    && (forall w :: k.HoldsCall(w) ==> CallFree(s1.tasks, w))
    && (k.Scans() ==> PoolFree(s1.tasks))
    && (k.Disposing? ==> (k.w, k.l) in s1.losses.retiring)
    && (k.Calling? && k.call.Running? ==> (k.c.worker, k.c.lease) in s1.losses.retiring)
    && (Spawns(k) ==> k.open.at.w in s1.pool.reserved && s1.pool.reserved[k.open.at.w] == Abandoned)
  }

  lemma DropKeeps(s: State, t: Tid)
    requires Inv(s) && CanDrop(s, t)
    ensures Inv(Drop(s, t))
    ensures Drop(s, t).tasks == s.tasks - {t} && Dropped(s.tasks[t], Drop(s, t))
  {
    var k := s.tasks[t];
    Facts(s, t);
    if Spawns(k) {
      KeepAbandon(s, k.open.at.w);
      assert Drop(s, t) == GiveUp(s, k.open.at.w);
    } else {
      KeepEnd(s, t);
      KeepLosses(EndTask(s, t), Drop(s, t).losses);
    }
  }
}
