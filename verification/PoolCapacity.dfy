/** Capacity, blocked acquirers and shutdown: counting arguments over every run. */
module PoolCapacity {
  import opened Wrappers
  import opened Errors
  import opened PoolState
  import opened PoolInvariant
  import opened PoolFrames
  import opened PoolRun
  import PoolSteps

  /** What an acquirer can observe of the pool. */
  datatype Ledger = Ledger(
    max: nat,
    startups: nat,
    children: set<Wid>,
    slots: map<Wid, Slot>,
    notified: nat,
    deaths: nat)

  function LedgerOf(s: State): Ledger {
    Ledger(s.cfg.maxWorkers, |s.pool.reserved|, s.pool.children, s.slots, s.pool.notifications, s.losses.deaths)
  }

  function Live(slots: map<Wid, Slot>, ws: set<Wid>): nat {
    |LiveIn(slots, ws)|
  }

  predicate NoIdle(slots: map<Wid, Slot>, ws: set<Wid>) {
    forall w :: w in ws && w in slots ==> !slots[w].state.Idle?
  }

  /** What an acquirer knows. A scan counts startups and live children exactly, up to
      slots that died since it registered. Until a notification came after that, no
      visited child is idle, and a waiter still finds the capacity filled. */
  ghost predicate WaitOk(b: Ledger, k: Task) {
    k.Acquires() ==>
      match k.open.at
      case Ready => true
      case Registered(seen, deathsSeen) => seen <= b.notified && deathsSeen <= b.deaths
      case Scanning(seen, deathsSeen, active, visited, found) =>
        && active == b.startups + |visited - found|
        && seen <= b.notified && deathsSeen <= b.deaths && visited <= b.children
        && b.startups + Live(b.slots, visited) <= active <= b.startups + Live(b.slots, visited) + (b.deaths - deathsSeen)
        && (seen == b.notified ==> NoIdle(b.slots, visited))
      case Waiting(seen, deathsSeen) =>
        && seen <= b.notified && deathsSeen <= b.deaths
        && (seen == b.notified ==>
              && b.startups > 0
              && NoIdle(b.slots, b.children)
              && b.max <= b.startups + Live(b.slots, b.children) + (b.deaths - deathsSeen))
      case Spawning(_) => true
  }

  ghost predicate WaitAt(b: Ledger, tasks: map<Tid, Task>, t: Tid) {
    t in tasks ==> WaitOk(b, tasks[t])
  }

  ghost predicate Waits(b: Ledger, tasks: map<Tid, Task>) {
    forall t {:trigger WaitAt(b, tasks, t)} :: WaitAt(b, tasks, t)
  }

  /** Reservations and live children never exceed the configured maximum. */
  ghost predicate Capacity(b: Ledger) {
    b.startups + Live(b.slots, b.children) <= b.max
  }

  ghost predicate Counts(s: State) {
    Capacity(LedgerOf(s)) && Waits(LedgerOf(s), s.tasks)
  }

  // ---- Counting live slots ----

  lemma LiveSame(slots: map<Wid, Slot>, next: map<Wid, Slot>, ws: set<Wid>)
    requires forall w :: w in ws ==> ((w in slots && slots[w].state != Dead) <==> (w in next && next[w].state != Dead))
    ensures Live(slots, ws) == Live(next, ws)
  {
    assert LiveIn(slots, ws) == LiveIn(next, ws);
  }

  lemma LiveKill(slots: map<Wid, Slot>, w: Wid, dead: Slot, ws: set<Wid>)
    requires dead.state == Dead
    ensures Live(slots, ws) - 1 <= Live(slots[w := dead], ws) <= Live(slots, ws)
  {
    assert LiveIn(slots[w := dead], ws) == LiveIn(slots, ws) - {w};
  }

  lemma LiveAdd(slots: map<Wid, Slot>, ws: set<Wid>, w: Wid)
    ensures Live(slots, ws) <= Live(slots, ws + {w}) <= Live(slots, ws) + 1
    ensures w !in ws && w in slots && slots[w].state != Dead ==> Live(slots, ws + {w}) == Live(slots, ws) + 1
    ensures w in slots && slots[w].state == Dead ==> Live(slots, ws + {w}) == Live(slots, ws)
  {
    if w in ws {
      assert ws + {w} == ws;
    } else if w in slots && slots[w].state != Dead {
      assert LiveIn(slots, ws + {w}) == LiveIn(slots, ws) + {w};
    } else {
      assert LiveIn(slots, ws + {w}) == LiveIn(slots, ws);
    }
  }

  lemma LivePrune(slots: map<Wid, Slot>, ws: set<Wid>, dead: set<Wid>)
    requires forall w :: w in dead ==> w in slots ==> slots[w].state == Dead
    ensures Live(slots, ws - dead) == Live(slots, ws)
  {
    assert LiveIn(slots, ws - dead) == LiveIn(slots, ws);
  }

  lemma LiveSubset(slots: map<Wid, Slot>, ws: set<Wid>)
    ensures Live(slots, ws) <= |ws|
  {
    Subset(LiveIn(slots, ws), ws);
  }

  lemma {:induction false} Subset(a: set<Wid>, b: set<Wid>)
    requires a <= b
    ensures |a| <= |b|
  {
    assert b == a + (b - a);
  }

  // ---- How waiting acquirers survive changes of the pool ----

  lemma WaitsTasks(b: Ledger, tasks: map<Tid, Task>, next: map<Tid, Task>, t: Tid)
    requires Waits(b, tasks) && next - {t} == tasks - {t}
    requires t in next ==> WaitOk(b, next[t])
    ensures Waits(b, next)
  {
    forall u ensures WaitAt(b, next, u) {
      assert WaitAt(b, tasks, u);
      if u in next && u != t { assert u in next - {t} && (next - {t})[u] == (tasks - {t})[u]; }
    }
  }

  /** A slot dies: one unit of capacity at most, accounted for by the death count. */
  lemma WaitsKill(b: Ledger, tasks: map<Tid, Task>, w: Wid, dead: Slot)
    requires Waits(b, tasks) && dead.state == Dead
    ensures Waits(b.(slots := b.slots[w := dead], deaths := b.deaths + 1), tasks)
  {
    var next := b.(slots := b.slots[w := dead], deaths := b.deaths + 1);
    forall u ensures WaitAt(next, tasks, u) {
      assert WaitAt(b, tasks, u);
      LiveKill(b.slots, w, dead, b.children);
      if u in tasks && tasks[u].Scans() { LiveKill(b.slots, w, dead, tasks[u].open.at.visited); }
    }
  }

  /** A slot changes without dying and without becoming idle. */
  lemma WaitsSlot(b: Ledger, tasks: map<Tid, Task>, w: Wid, slot: Slot)
    requires Waits(b, tasks)
    requires if w in b.slots then b.slots[w].state != Dead && slot.state != Dead && (slot.state.Idle? ==> b.slots[w].state.Idle?)
             else w !in b.children
    ensures Waits(b.(slots := b.slots[w := slot]), tasks)
  {
    var next := b.(slots := b.slots[w := slot]);
    forall u ensures WaitAt(next, tasks, u) {
      assert WaitAt(b, tasks, u);
      LiveSame(b.slots, next.slots, b.children);
      if u in tasks && tasks[u].Scans() && tasks[u].open.at.visited <= b.children { LiveSame(b.slots, next.slots, tasks[u].open.at.visited); }
    }
  }

  /** A notification with the pool lock held: every acquirer is released from its knowledge. */
  lemma WaitsNotifyLocked(b: Ledger, next: Ledger, tasks: map<Tid, Task>)
    requires Waits(b, tasks) && PoolFree(tasks)
    requires next.notified > b.notified && next.deaths == b.deaths
    ensures Waits(next, tasks)
  {
    forall u ensures WaitAt(next, tasks, u) { assert WaitAt(b, tasks, u); }
  }

  /** A slot goes idle and the waiters are notified. */
  lemma WaitsNotifyIdle(b: Ledger, tasks: map<Tid, Task>, w: Wid, slot: Slot)
    requires Waits(b, tasks) && w in b.slots && b.slots[w].state != Dead && slot.state != Dead
    ensures Waits(b.(slots := b.slots[w := slot], notified := b.notified + 1), tasks)
  {
    var next := b.(slots := b.slots[w := slot], notified := b.notified + 1);
    forall u ensures WaitAt(next, tasks, u) {
      assert WaitAt(b, tasks, u);
      if u in tasks && tasks[u].Scans() { LiveSame(b.slots, next.slots, tasks[u].open.at.visited); }
    }
  }

  /** With the scanning task gone, dead children leave the list and startups may be added. */
  lemma WaitsPrune(b: Ledger, tasks: map<Tid, Task>, dead: set<Wid>, startups: nat)
    requires Waits(b, tasks) && PoolFree(tasks) && startups >= b.startups
    requires forall w :: w in dead ==> w in b.slots && b.slots[w].state == Dead
    ensures Waits(b.(children := b.children - dead, startups := startups), tasks)
  {
    var next := b.(children := b.children - dead, startups := startups);
    LivePrune(b.slots, b.children, dead);
    forall u ensures WaitAt(next, tasks, u) { assert WaitAt(b, tasks, u); }
  }

  // ---- Steps ----

  lemma CountsEndOrSame(s: State, next: map<Tid, Task>, t: Tid)
    requires Counts(s) && next - {t} == s.tasks - {t}
    requires t in next ==> WaitOk(LedgerOf(s), next[t])
    ensures Counts(s.(tasks := next))
  {
    WaitsTasks(LedgerOf(s), s.tasks, next, t);
  }

  lemma CountsKill(s: State, w: Wid)
    requires Counts(s) && w in s.slots
    ensures Counts(Kill(s, w))
  {
    var dead := Slot(Dead, false, None, None);
    WaitsKill(LedgerOf(s), s.tasks, w, dead);
    LiveKill(s.slots, w, dead, s.pool.children);
  }

  lemma CountsKillForLease(s: State, w: Wid, l: Lid)
    requires Counts(s) && w in s.slots
    ensures Counts(KillForLease(s, w, l))
  {
    if s.slots[w].state.BelongsTo(l) { CountsKill(s, w); }
  }

  lemma CountsSlot(s: State, w: Wid, slot: Slot)
    requires Counts(s) && w in s.slots && s.slots[w].state != Dead && slot.state != Dead
    requires slot.state.Idle? ==> s.slots[w].state.Idle?
    ensures Counts(s.(slots := s.slots[w := slot]))
  {
    WaitsSlot(LedgerOf(s), s.tasks, w, slot);
    LiveSame(s.slots, s.slots[w := slot], s.pool.children);
  }

  lemma StaleTakeCounts(s: State, t: Tid)
    requires Counts(s) && CanStaleTake(s, t)
    ensures Counts(StaleTake(s, t))
  {
    CountsOther(s, StaleTake(s, t), t);
  }

  lemma StaleRetireCounts(s: State, t: Tid)
    requires Inv(s) && Counts(s) && CanStaleRetire(s, t)
    ensures Counts(StaleRetire(s, t))
  {
    CountsKillForLease(s, s.tasks[t].open.w, s.tasks[t].open.l);
    CountsOther(KillForLease(s, s.tasks[t].open.w, s.tasks[t].open.l), StaleRetire(s, t), t);
  }

  lemma DrawCounts(s: State, t: Tid)
    requires Counts(s) && CanDraw(s, t)
    ensures Counts(Draw(s, t))
  {
    CountsEndOrSame(s, Draw(s, t).tasks, t);
  }

  lemma DrawFailCounts(s: State, t: Tid)
    requires Counts(s) && CanDrawFail(s, t)
    ensures Counts(DrawFail(s, t))
  {
    CountsOther(s, DrawFail(s, t), t);
  }

  lemma OpenCounts(s: State, a: OpenStep)
    requires Inv(s) && Counts(s) && OpenStepEnabled(s, a)
    ensures Counts(OpenStepApply(s, a))
  {
    match a
    case DoNewDatabase(d, session) =>
    case DoOpenReuse(t, d, kind) => CountsOther(s, OpenReuse(s, t, d, kind), t);
    case DoOpenStale(t, d) => CountsOther(s, OpenStale(s, t, d), t);
    case DoStaleTake(t) => StaleTakeCounts(s, t);
    case DoStaleRetire(t) => StaleRetireCounts(s, t);
    case DoOpenFresh(t, d) => CountsOther(s, OpenFresh(s, t, d), t);
    case DoDraw(t) => DrawCounts(s, t);
    case DoDrawFail(t) => DrawFailCounts(s, t);
  }

  lemma VisitCounts(s: State, t: Tid, w: Wid)
    requires Inv(s) && Counts(s) && CanVisitBusy(s, t, w)
    ensures Counts(VisitBusy(s, t, w))
  {
    var at := s.tasks[t].open.at;
    assert WaitAt(LedgerOf(s), s.tasks, t) && ScanAt(s.pool.children, s.slots, s.tasks, t);
    LiveAdd(s.slots, at.visited, w);
    assert (at.visited + {w}) - (at.found + {w}) == at.visited - at.found;
    assert (at.visited + {w}) - at.found == (at.visited - at.found) + {w};
    CountsEndOrSame(s, VisitBusy(s, t, w).tasks, t);
  }

  lemma VisitIdleCounts(s: State, t: Tid, w: Wid, kind: CallKind)
    requires Inv(s) && Counts(s) && CanVisitIdle(s, t, w, kind)
    ensures Counts(VisitIdle(s, t, w, kind))
  {
    var slot := s.slots[w].(state := Leased(s.tasks[t].session, s.tasks[t].open.l));
    CountsSlot(s, w, slot);
    CountsEndOrSame(s.(slots := s.slots[w := slot]), VisitIdle(s, t, w, kind).tasks, t);
  }

  /** Facts about a finished scan: the count is exact up to deaths. */
  lemma ScanFacts(s: State, t: Tid)
    requires Inv(s) && Counts(s) && ScanComplete(s, t)
    ensures s.tasks[t].open.at.visited == s.pool.children
    ensures WaitOk(LedgerOf(s), s.tasks[t]) && ScanOk(s.tasks[t], s.pool.children, s.slots)
    ensures PoolFree(s.tasks - {t})
  {
    assert WaitAt(LedgerOf(s), s.tasks, t) && ScanAt(s.pool.children, s.slots, s.tasks, t);
    LocksHeld(s.tasks, t);
  }

  lemma ScanWaitCounts(s: State, t: Tid)
    requires Inv(s) && Counts(s) && CanScanWait(s, t)
    ensures Counts(ScanWait(s, t))
  {
    var s1 := ScanWait(s, t);
    var found := s.tasks[t].open.at.found;
    ScanFacts(s, t);
    WaitsTasks(LedgerOf(s), s.tasks, s.tasks - {t}, t);
    WaitsPrune(LedgerOf(s), s.tasks - {t}, found, |s.pool.reserved|);
    LivePrune(s.slots, s.pool.children, found);
    WaitsTasks(LedgerOf(s1), s.tasks - {t}, s1.tasks, t);
  }

  lemma ScanReserveCounts(s: State, t: Tid)
    requires Inv(s) && Counts(s) && CanScanReserve(s, t)
    ensures Counts(ScanReserve(s, t))
  {
    var s1 := ScanReserve(s, t);
    var found := s.tasks[t].open.at.found;
    ScanFacts(s, t);
    assert WorkerAt(s.pool.children, s.pool.reserved, s.pool.nextWid, s.slots, s.pool.nextWid);
    WaitsTasks(LedgerOf(s), s.tasks, s.tasks - {t}, t);
    WaitsPrune(LedgerOf(s), s.tasks - {t}, found, |s1.pool.reserved|);
    LivePrune(s.slots, s.pool.children, found);
    WaitsTasks(LedgerOf(s1), s.tasks - {t}, s1.tasks, t);
  }

  lemma ScanFailCounts(s: State, t: Tid)
    requires Inv(s) && Counts(s) && CanScanFail(s, t)
    ensures Counts(ScanFail(s, t))
  {
    var found := s.tasks[t].open.at.found;
    ScanFacts(s, t);
    WaitsTasks(LedgerOf(s), s.tasks, s.tasks - {t}, t);
    WaitsPrune(LedgerOf(s), s.tasks - {t}, found, |s.pool.reserved|);
    LivePrune(s.slots, s.pool.children, found);
  }

  lemma ScanStartCounts(s: State, t: Tid)
    requires Counts(s) && CanScanStart(s, t)
    ensures Counts(ScanStart(s, t))
  {
    assert WaitAt(LedgerOf(s), s.tasks, t);
    assert LiveIn(s.slots, {}) == {};
    var none: set<Wid> := {};
    assert none - none == none;
    CountsEndOrSame(s, ScanStart(s, t).tasks, t);
  }

  lemma AcquireCounts(s: State, a: AcquireStep)
    requires Inv(s) && Counts(s) && AcquireStepEnabled(s, a)
    ensures Counts(AcquireStepApply(s, a))
  {
    match a
    case DoRegister(t) => CountsEndOrSame(s, Register(s, t).tasks, t);
    case DoScanStart(t) => ScanStartCounts(s, t);
    case DoVisitBusy(t, w) => VisitCounts(s, t, w);
    case DoVisitIdle(t, w, kind) => VisitIdleCounts(s, t, w, kind);
    case DoScanWait(t) => ScanWaitCounts(s, t);
    case DoScanReserve(t) => ScanReserveCounts(s, t);
    case DoScanFail(t) => ScanFailCounts(s, t);
    case DoWake(t) => CountsEndOrSame(s, Wake(s, t).tasks, t);
    case DoRejectAcquire(t) => CountsEndOrSame(s, RejectAcquire(s, t).tasks, t);
  }

  lemma SpawnDoneCounts(s: State, w: Wid)
    requires Inv(s) && Counts(s) && CanSpawnDone(s, w)
    ensures Counts(SpawnDone(s, w))
  {
    var s1 := SpawnDone(s, w);
    assert ReservationAt(s.pool.reserved, s.slots, s.tasks, w);
    assert WorkerAt(s.pool.children, s.pool.reserved, s.pool.nextWid, s.slots, w);
    SameSize(s.pool.reserved, w, s1.pool.reserved[w]);
    WaitsSlot(LedgerOf(s), s.tasks, w, s1.slots[w]);
    LiveSame(s.slots, s1.slots, s.pool.children);
  }

  lemma SameSize<K, V>(m: map<K, V>, k: K, v: V)
    requires k in m
    ensures |m[k := v]| == |m|
  {
    assert m[k := v].Keys == m.Keys;
  }

  lemma OneLess<K, V>(m: map<K, V>, k: K)
    requires k in m
    ensures |m - {k}| == |m| - 1
  {
    assert (m - {k}).Keys == m.Keys - {k};
  }

  lemma GiveUpCounts(s: State, w: Wid)
    requires Inv(s) && Counts(s) && w in s.pool.reserved && !s.pool.reserved[w].Abandoned?
    ensures Counts(GiveUp(s, w))
  {
    SameSize(s.pool.reserved, w, Abandoned);
    match s.pool.reserved[w].starter
    case Opener(t) => WaitsTasks(LedgerOf(s), s.tasks, s.tasks - {t}, t);
    case Replenisher =>
  }

  /** An installed reservation trades one startup for one child. */
  lemma InstallCounts(s: State, w: Wid)
    requires Counts(s) && w in s.pool.reserved && PoolFree(s.tasks)
    ensures Counts(s.(pool := Notify(s.pool).(children := s.pool.children + {w}, reserved := s.pool.reserved - {w})))
  {
    var s1 := s.(pool := Notify(s.pool).(children := s.pool.children + {w}, reserved := s.pool.reserved - {w}));
    OneLess(s.pool.reserved, w);
    LiveAdd(s.slots, s.pool.children, w);
    WaitsNotifyLocked(LedgerOf(s), LedgerOf(s1), s.tasks);
  }

  lemma StartupCounts(s: State, a: StartupStep)
    requires Inv(s) && Counts(s) && StartupStepEnabled(s, a)
    ensures Counts(StartupStepApply(s, a))
  {
    match a
    case DoSpawnDone(w) => SpawnDoneCounts(s, w);
    case DoGiveUp(w) => GiveUpCounts(s, w);
    case DoInstallIdle(w) => InstallCounts(s, w);
    case DoInstallLeased(w, kind) =>
      InstallCounts(s, w);
      var s1 := InstallLeased(s, w, kind);
      CountsEndOrSame(s.(pool := s1.pool), s1.tasks, s.pool.reserved[w].starter.task);
    case DoDiscard(w) => CountsKill(s, w);
    case DoDropReservation(w) =>
      OneLess(s.pool.reserved, w);
      WaitsNotifyLocked(LedgerOf(s), LedgerOf(DropReservation(s, w)), s.tasks);
  }

  /** A step that only moves a task which does not acquire. */
  lemma CountsOther(s: State, s1: State, t: Tid)
    requires Counts(s) && LedgerOf(s1) == LedgerOf(s) && s1.tasks - {t} == s.tasks - {t}
    requires t in s1.tasks ==> !s1.tasks[t].Acquires()
    ensures Counts(s1)
  {
    WaitsTasks(LedgerOf(s), s.tasks, s1.tasks, t);
  }

  lemma RetireCallCounts(s: State, t: Tid, cause: RetireCause)
    requires Counts(s) && CanRetireCall(s, t, cause)
    ensures Counts(RetireCall(s, t, cause))
  {
    var s1 := KillForLease(s, s.tasks[t].c.worker, s.tasks[t].c.lease);
    CountsKillForLease(s, s.tasks[t].c.worker, s.tasks[t].c.lease);
    CountsOther(s1, RetireCall(s, t, cause), t);
  }

  lemma SendCounts(s: State, t: Tid, ok: bool)
    requires Counts(s) && CanSend(s, t)
    ensures Counts(Send(s, t, ok))
  {
    RewriteCounts(s, Send(s, t, ok), t, s.tasks[t].c.worker);
  }

  lemma SettleCallCounts(s: State, t: Tid, reply: Reply)
    requires Counts(s) && CanSettleCall(s, t, reply)
    ensures Counts(SettleCall(s, t, reply))
  {
    CountsOther(s, SettleCall(s, t, reply), t);
  }

  lemma SettleOpenCounts(s: State, t: Tid, reply: Reply)
    requires Counts(s) && CanSettleOpen(s, t, reply)
    ensures Counts(SettleOpen(s, t, reply))
  {
    RewriteCounts(s, SettleOpen(s, t, reply), t, s.tasks[t].c.worker);
  }

  lemma UnbindCounts(s: State, t: Tid)
    requires Counts(s) && CanUnbind(s, t)
    ensures Counts(Unbind(s, t))
  {
    CountsOther(s, Unbind(s, t), t);
  }

  lemma PinCounts(s: State, t: Tid)
    requires Counts(s) && CanPin(s, t)
    ensures Counts(Pin(s, t))
  {
    CountsOther(s, Pin(s, t), t);
  }

  lemma CallCounts(s: State, a: CallStep)
    requires Inv(s) && Counts(s) && CallStepEnabled(s, a)
    ensures Counts(CallStepApply(s, a))
  {
    match a
    case DoCallStart(t, d, expected, kind) => CountsOther(s, CallStart(s, t, d, expected, kind), t);
    case DoLockCall(t) => CountsOther(s, LockCall(s, t), t);
    case DoRejectCall(t) => CountsOther(s, RejectCall(s, t), t);
    case DoNeverDispatch(t) => CountsOther(s, NeverDispatch(s, t), t);
    case DoSend(t, ok) => SendCounts(s, t, ok);
    case DoRetireCall(t, cause) => RetireCallCounts(s, t, cause);
    case DoSettleCall(t, reply) => SettleCallCounts(s, t, reply);
    case DoSettleOpen(t, reply) => SettleOpenCounts(s, t, reply);
    case DoUnbind(t) => UnbindCounts(s, t);
    case DoPin(t) => PinCounts(s, t);
  }

  lemma RewriteCounts(s: State, s1: State, t: Tid, w: Wid)
    requires Counts(s) && w in s.slots && s.slots[w].state != Dead && w in s1.slots && s1.slots[w].state == s.slots[w].state
    requires s1.slots == s.slots[w := s1.slots[w]] && LedgerOf(s1) == LedgerOf(s).(slots := s1.slots)
    requires s1.tasks - {t} == s.tasks - {t} && (t in s1.tasks ==> s1.tasks[t].Calling?)
    ensures Counts(s1)
  {
    CountsSlot(s, w, s1.slots[w]);
    WaitsTasks(LedgerOf(s1), s.tasks, s1.tasks, t);
  }

  lemma ReleaseLockCounts(s: State, t: Tid)
    requires Inv(s) && Counts(s) && CanReleaseLock(s, t)
    ensures Counts(ReleaseLock(s, t))
  {
    var s1 := ReleaseLock(s, t);
    var w := s.tasks[t].w;
    if s.slots[w].state.BelongsTo(s.tasks[t].l) { CountsSlot(s, w, s1.slots[w]); }
    WaitsTasks(LedgerOf(s1), s.tasks, s1.tasks, t);
  }

  lemma ReleaseRetireCounts(s: State, t: Tid)
    requires Inv(s) && Counts(s) && InRelease(s, t)
    ensures Counts(ReleaseRetire(s, t))
  {
    CountsKillForLease(s, s.tasks[t].w, s.tasks[t].l);
    CountsOther(KillForLease(s, s.tasks[t].w, s.tasks[t].l), ReleaseRetire(s, t), t);
  }

  lemma ReleaseIdleCounts(s: State, t: Tid)
    requires Inv(s) && Counts(s) && InRelease(s, t)
    ensures Counts(ReleaseIdle(s, t))
  {
    var s1 := ReleaseIdle(s, t);
    var w := s.tasks[t].w;
    if s.slots[w].state != Dead {
      WaitsNotifyIdle(LedgerOf(s), s.tasks, w, s1.slots[w]);
      LiveSame(s.slots, s1.slots, s.pool.children);
    }
    WaitsTasks(LedgerOf(s1), s.tasks, s1.tasks, t);
  }

  lemma ReapMarkCounts(s: State, t: Tid)
    requires Inv(s) && Counts(s) && CanReapMark(s, t)
    ensures Counts(ReapMark(s, t))
  {
    var w := s.tasks[t].w;
    if s.slots[w].state != Dead { CountsKill(s, w); }
    CountsOther(KillAny(s, w), ReapMark(s, t), t);
  }

  lemma ReleaseCounts(s: State, a: ReleaseStep)
    requires Inv(s) && Counts(s) && ReleaseStepEnabled(s, a)
    ensures Counts(ReleaseStepApply(s, a))
  {
    match a
    case DoClose(t, d, expected) => CountsOther(s, Close(s, t, d, expected), t);
    case DoReleaseLock(t) => ReleaseLockCounts(s, t);
    case DoReleaseRetire(t, o) => ReleaseRetireCounts(s, t);
    case DoReleaseIdle(t, o) => ReleaseIdleCounts(s, t);
    case DoReapTake(t, d) => CountsOther(s, ReapTake(s, t, d), t);
    case DoReapMark(t) => ReapMarkCounts(s, t);
  }

  lemma {:induction false} RefillCounts(s: State)
    requires Inv(s) && Counts(s) && PoolFree(s.tasks)
    ensures Counts(s.(pool := Refill(s.cfg, s.pool)))
    decreases s.cfg.maxWid - s.pool.nextWid
  {
    var p := s.pool;
    if !p.shuttingDown && |p.reserved| + |p.children| < s.cfg.Floor() && p.nextWid < s.cfg.maxWid {
      var q := p.(reserved := p.reserved[p.nextWid := StartingUp(Replenisher)], nextWid := p.nextWid + 1);
      assert WorkerAt(p.children, p.reserved, p.nextWid, s.slots, p.nextWid);
      LiveSubset(s.slots, p.children);
      WaitsPrune(LedgerOf(s), s.tasks, {}, |q.reserved|);
      assert p.children - {} == p.children;
      PoolSteps.KeepRefill(s, q);
      RefillCounts(s.(pool := q));
    }
  }

  lemma ForgetCounts(s: State, w: Wid)
    requires Inv(s) && Counts(s) && CanForget(s, w)
    ensures Counts(Forget(s, w))
  {
    assert LossAt(s.slots, s.losses, w);
    LivePrune(s.slots, s.pool.children, {w});
    WaitsNotifyLocked(LedgerOf(s), LedgerOf(Forget(s, w)), s.tasks);
  }

  lemma LoseTransportCounts(s: State, w: Wid)
    requires Inv(s) && Counts(s) && CanLoseTransport(s, w)
    ensures Counts(LoseTransport(s, w))
  {
    assert LossAt(s.slots, s.losses, w);
    if s.slots[w].state == Dead {
      assert LoseTransport(s, w).slots == s.slots;
    } else {
      CountsSlot(s, w, s.slots[w].(transport := false));
    }
  }

  lemma DropCounts(s: State, t: Tid)
    requires Inv(s) && Counts(s) && CanDrop(s, t)
    ensures Counts(Drop(s, t))
  {
    if Spawns(s.tasks[t]) {
      assert SpawnerAt(s.pool.reserved, s.tasks, t);
      GiveUpCounts(s, s.tasks[t].open.at.w);
      assert Drop(s, t) == GiveUp(s, s.tasks[t].open.at.w);
    } else {
      CountsEndOrSame(s, s.tasks - {t}, t);
    }
  }

  lemma UpkeepCounts(s: State, a: UpkeepStep)
    requires Inv(s) && Counts(s) && UpkeepStepEnabled(s, a)
    ensures Counts(UpkeepStepApply(s, a))
  {
    match a
    case DoGuardRetire(w, l) => CountsKillForLease(s, w, l);
    case DoIdleReap(w) => CountsKill(s, w);
    case DoForget(w) => ForgetCounts(s, w);
    case DoForgetLost(w) =>
    case DoReplenish => RefillCounts(s.(pool := s.pool.(replenishDue := false)));
    case DoLoseTransport(w) => LoseTransportCounts(s, w);
    case DoDrop(t) => DropCounts(s, t);
  }

  lemma ShutCounts(s: State, a: ShutStep)
    requires Inv(s) && Counts(s) && ShutStepEnabled(s, a)
    ensures Counts(ShutStepApply(s, a))
  {
    match a
    case DoShutBegin =>
    case DoShutSnapshot =>
    case DoShutMark(w) => CountsKill(s, w);
    case DoShutForget(w) =>
      LivePrune(s.slots, s.pool.children, {w});
      WaitsNotifyLocked(LedgerOf(s), LedgerOf(ShutForget(s, w)), s.tasks);
    case DoShutDone =>
  }

  lemma StepCounts(s: State, a: Step)
    requires Inv(s) && Counts(s) && Enabled(s, a)
    ensures Counts(Apply(s, a))
  {
    match a
    case Open(b) => OpenCounts(s, b);
    case Acquire(b) => AcquireCounts(s, b);
    case Startup(b) => StartupCounts(s, b);
    case Call(b) => CallCounts(s, b);
    case Release(b) => ReleaseCounts(s, b);
    case Upkeep(b) => UpkeepCounts(s, b);
    case Shut(b) => ShutCounts(s, b);
  }

  lemma InitCounts(s: State)
    requires Init(s)
    ensures Counts(s)
  {
    LiveSubset(s.slots, s.pool.children);
  }

  lemma RunStepCounts(states: seq<State>, steps: seq<Step>, i: nat)
    requires Run(states, steps) && i < |steps| && Counts(states[i])
    ensures Counts(states[i + 1])
  {
    RunKeeps(states, steps, i);
    assert NextAt(states, steps, i);
    StepCounts(states[i], steps[i]);
  }

  lemma {:induction false} RunCounts(states: seq<State>, steps: seq<Step>, i: nat)
    requires Run(states, steps) && i < |states|
    ensures Inv(states[i]) && Counts(states[i])
  {
    if i == 0 {
      InitCounts(states[0]);
      InitInv(states[0]);
    } else {
      RunCounts(states, steps, i - 1);
      RunStepCounts(states, steps, i - 1);
      RunKeeps(states, steps, i);
    }
  }

  /** Capacity: startups and live children never exceed the configured maximum. */
  lemma CapacityHolds(states: seq<State>, steps: seq<Step>, i: nat)
    requires Run(states, steps) && i < |states|
    ensures |states[i].pool.reserved| + |LiveIn(states[i].slots, states[i].pool.children)| <= states[i].cfg.maxWorkers
  {
    RunCounts(states, steps, i);
  }

  /** Blocked acquirers are never stranded: a waiting acquirer that was not
      notified since it registered faces a pool without an idle child and with a
      startup outstanding, filled to capacity but for the slots that died since. */
  lemma NeverStranded(states: seq<State>, steps: seq<Step>, i: nat, t: Tid)
    requires Run(states, steps) && i < |states| && t in states[i].tasks
    requires states[i].tasks[t].Acquires() && states[i].tasks[t].open.at.Waiting?
    ensures var s := states[i];
            var at := s.tasks[t].open.at;
            || CanWake(s, t)
            || (&& at.seen == s.pool.notifications && s.pool.reserved != map[]
                && (forall w :: w in s.pool.children ==> w in s.slots && !s.slots[w].state.Idle?)
                && |s.pool.reserved| + |LiveIn(s.slots, s.pool.children)| + (s.losses.deaths - at.deathsSeen) >= s.cfg.maxWorkers)
  {
    RunCounts(states, steps, i);
    var s := states[i];
    assert WaitAt(LedgerOf(s), s.tasks, t);
    forall w | w in s.pool.children ensures w in s.slots {
      assert WorkerAt(s.pool.children, s.pool.reserved, s.pool.nextWid, s.slots, w);
    }
  }

  lemma ScanCount(s: State, t: Tid)
    requires Inv(s) && Counts(s) && ScanComplete(s, t)
    ensures var at, n := s.tasks[t].open.at, |s.pool.reserved| + |LiveIn(s.slots, s.pool.children)|;
            && at.deathsSeen <= s.losses.deaths && n <= at.active <= n + (s.losses.deaths - at.deathsSeen)
            && at.active == |s.pool.reserved| + |s.pool.children - at.found|
  {
    ScanFacts(s, t);
  }

  /** How a scan ends: it reserves a worker only below capacity and while serving; it
      waits only at capacity (up to slots that died since it registered) with a startup
      outstanding; it fails only at capacity without one, while shutting down, or
      when worker ids ran out. In any case it drops dead children from the list: those
      left live or died since it registered. */
  lemma ScanOutcome(states: seq<State>, steps: seq<Step>, i: nat, t: Tid)
    requires Run(states, steps) && i < |steps|
    requires steps[i] == Acquire(DoScanReserve(t)) || steps[i] == Acquire(DoScanWait(t)) || steps[i] == Acquire(DoScanFail(t))
    ensures t in states[i].tasks && states[i].tasks[t].Scans()
    ensures var s := states[i];
            var n := |s.pool.reserved| + |LiveIn(s.slots, s.pool.children)|;
            var full := n + (s.losses.deaths - s.tasks[t].open.at.deathsSeen) >= s.cfg.maxWorkers;
            && (steps[i].acquire.DoScanReserve? ==> n < s.cfg.maxWorkers && !s.pool.shuttingDown)
            && (steps[i].acquire.DoScanWait? ==> full && s.pool.reserved != map[])
            && (steps[i].acquire.DoScanFail? ==> (full && s.pool.reserved == map[]) || s.pool.shuttingDown || s.pool.nextWid >= s.cfg.maxWid)
            && states[i + 1].pool.children <= s.pool.children
            && |states[i + 1].pool.children| <= |LiveIn(s.slots, s.pool.children)| + (s.losses.deaths - s.tasks[t].open.at.deathsSeen)
  {
    RunCounts(states, steps, i);
    assert NextAt(states, steps, i);
    ScanCount(states[i], t);
  }
}
