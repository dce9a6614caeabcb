/** The worker pool, the database bindings and the tasks that drive them, as a
    machine that takes one step per critical section.

    A task is one running future. A mutex belongs to the one whose stage holds
    its guard, so ending a task releases its locks. Every await at which a
    future may be dropped has a drop step; an armed retirement guard then
    leaves a lease-scoped entry in `retiring`. */
module PoolState {
  import opened Wrappers
  import opened Errors

  type Wid = nat      // worker (slot) identifier
  type Lid = nat      // lease identifier
  type Gen = nat      // database generation
  type DbId = nat
  type Tid = nat
  type Session = string
  type Path = string
  type Artifacts = string

  datatype Config = Config(maxWorkers: nat, minWorkers: nat, maxWid: nat, maxLid: nat, maxGen: nat)
  {
    function Floor(): nat {
      if minWorkers <= maxWorkers then minWorkers else maxWorkers
    }
  }

  datatype ChildState =
    | Idle
    | Leased(session: Session, lease: Lid)
    | Closing(lease: Lid)
    | Dead
  {
    predicate BelongsTo(expected: Lid) {
      (Leased? || Closing?) && lease == expected
    }
  }

  datatype Slot = Slot(
    state: ChildState,
    transport: bool,                 // the MCP transport to the child is open
    path: Option<Path>,
    artifacts: Option<Artifacts>)

  /** What retirement takes out of a slot. */
  datatype DeadWorker = DeadWorker(path: Option<Path>, artifacts: Option<Artifacts>)

  /** Who waits for a reserved startup. */
  datatype Starter = Opener(task: Tid) | Replenisher

  datatype Reservation =
    | StartingUp(starter: Starter)   // the process is starting
    | Started(starter: Starter)      // slot built, not yet in `children`
    | Abandoned                      // dropped or failed; cleanup is scheduled

  datatype Lease = Lease(worker: Wid, lease: Lid, generation: Gen, debugPinned: bool)

  datatype Database = Database(session: Session, nextGen: Gen, lease: Option<Lease>)

  /** Where a lease id was installed. */
  datatype Install = Install(db: DbId, generation: Gen, worker: Wid)

  datatype CallKind =
    | Ordinary(tool: Tool)
    | Open(freshLease: bool, target: Path, snapshot: Option<Artifacts>)
  {
    function ToolOf(): Tool {
      if Open? then OpenIdb else tool
    }
  }

  datatype Call = Call(db: DbId, session: Session, worker: Wid, lease: Lid, generation: Gen, kind: CallKind)

  datatype AcquireStage =
    | Ready
    | Registered(seen: nat, deathsSeen: nat)
    | Scanning(seen: nat, deathsSeen: nat, active: nat, visited: set<Wid>, found: set<Wid>)
    | Waiting(seen: nat, deathsSeen: nat)
    | Spawning(w: Wid)

  datatype OpenStage =
    | StaleWait
    | StaleTaken(w: Wid, l: Lid)
    | NeedLease
    | Acquiring(g: Gen, l: Lid, at: AcquireStage)

  datatype CallStage =
    | Queued
    | Locked
    | Running(sent: bool, previous: Option<Path>)
    | Failed(error: ToolError)
    | Pinning(pinned: bool)

  datatype DisposeStage = Releasing | ClosingDown | Reaping

  datatype Task =
    | Opening(d: DbId, session: Session, open: OpenStage)  // open_idb resolving a lease, holding the handle mutex
    | Calling(c: Call, call: CallStage)                    // a call bound to a lease
    | Disposing(w: Wid, l: Lid, how: DisposeStage)         // a lease taken out of its database
  {
    predicate Acquires() {
      Opening? && open.Acquiring?
    }

    predicate Scans() {
      Acquires() && open.at.Scanning?
    }

    /** The one task that may install, release or retire lease `id` for good. */
    predicate HoldsLease(id: Lid) {
      || (Opening? && open.StaleTaken? && open.l == id)
      || (Opening? && open.Acquiring? && open.l == id)
      || (Disposing? && l == id)
    }

    predicate HoldsCall(slot: Wid) {
      || (Opening? && open.StaleTaken? && open.w == slot)
      || (Calling? && (call.Locked? || call.Running?) && c.worker == slot)
      || (Disposing? && how.ClosingDown? && w == slot)
    }
  }

  datatype ShutPhase = Serving | Draining(left: set<Wid>) | Drained

  datatype PoolInner = PoolInner(
    children: set<Wid>,
    reserved: map<Wid, Reservation>, // the `spawning` set with the startup behind each id
    nextWid: nat,
    nextLid: nat,
    shuttingDown: bool,
    shut: ShutPhase,
    notifications: nat,              // calls of notify_waiters so far
    replenishDue: bool)

  datatype Losses = Losses(
    deaths: nat,                     // slots marked dead so far
    handed: map<Wid, DeadWorker>,    // history: what each retirement took
    forgetting: set<Wid>,            // retirements that have yet to forget their slot
    retiring: set<(Wid, Lid)>)       // dropped retirement guards

  datatype State = State(
    cfg: Config,
    pool: PoolInner,
    slots: map<Wid, Slot>,           // every slot ever built
    losses: Losses,
    dbs: map<DbId, Database>,
    tasks: map<Tid, Task>,
    installs: map<Lid, Install>)     // history: where each lease id was installed

  function LiveIn(slots: map<Wid, Slot>, ws: set<Wid>): set<Wid> {
    set w | w in ws && w in slots && slots[w].state != Dead
  }

  // ---- Locks ----

  ghost predicate DbFree(tasks: map<Tid, Task>, d: DbId) {
    forall t :: t in tasks && tasks[t].Opening? ==> tasks[t].d != d
  }

  ghost predicate CallFree(tasks: map<Tid, Task>, w: Wid) {
    forall t :: t in tasks ==> !tasks[t].HoldsCall(w)
  }

  ghost predicate PoolFree(tasks: map<Tid, Task>) {
    forall t :: t in tasks ==> !tasks[t].Scans()
  }

  // ---- Shared effects ----

  function SetTask(s: State, t: Tid, task: Task): State {
    s.(tasks := s.tasks[t := task])
  }

  function EndTask(s: State, t: Tid): State {
    s.(tasks := s.tasks - {t})
  }

  function Unbound(s: State, d: DbId): map<DbId, Database>
    requires d in s.dbs
  {
    s.dbs[d := s.dbs[d].(lease := None)]
  }

  function Notify(p: PoolInner): PoolInner {
    p.(notifications := p.notifications + 1)
  }

  /** `take_dead_worker_locked`: the slot dies and hands over what it owned. */
  function Kill(s: State, w: Wid): State
    requires w in s.slots
  {
    var slot := s.slots[w];
    s.(slots := s.slots[w := Slot(Dead, false, None, None)],
       losses := s.losses.(deaths := s.losses.deaths + 1,
                           handed := s.losses.handed[w := DeadWorker(slot.path, slot.artifacts)],
                           forgetting := s.losses.forgetting + {w}))
  }

  /** `mark_dead_for_lease` up to the end of its child critical section. */
  function KillForLease(s: State, w: Wid, l: Lid): State
    requires w in s.slots
  {
    if s.slots[w].state.BelongsTo(l) then Kill(s, w) else s
  }

  /** `mark_dead` up to the end of its child critical section. */
  function KillAny(s: State, w: Wid): State
    requires w in s.slots
  {
    if s.slots[w].state == Dead then s else Kill(s, w)
  }

  // ---- Opening: resolving the lease ----

  predicate Usable(slots: map<Wid, Slot>, lease: Lease) {
    && lease.worker in slots
    && slots[lease.worker].state.BelongsTo(lease.lease)
    && slots[lease.worker].transport
  }

  /** The handle mutex is free and the handle holds a lease. */
  ghost predicate Bound(s: State, d: DbId) {
    d in s.dbs && DbFree(s.tasks, d) && s.dbs[d].lease.Some? && s.dbs[d].lease.value.worker in s.slots
  }

  function BoundCall(s: State, d: DbId, kind: CallKind): Call
    requires d in s.dbs && s.dbs[d].lease.Some?
  {
    var b := s.dbs[d].lease.value;
    Call(d, s.dbs[d].session, b.worker, b.lease, b.generation, kind)
  }

  predicate CanNewDatabase(s: State, d: DbId) { d !in s.dbs }

  function NewDatabase(s: State, d: DbId, session: Session): State {
    s.(dbs := s.dbs[d := Database(session, 0, None)])
  }

  ghost predicate CanOpenReuse(s: State, t: Tid, d: DbId, kind: CallKind) {
    && t !in s.tasks && Bound(s, d) && Usable(s.slots, s.dbs[d].lease.value)
    && kind.Open? && !kind.freshLease
  }

  ghost function OpenReuse(s: State, t: Tid, d: DbId, kind: CallKind): State
    requires CanOpenReuse(s, t, d, kind)
  {
    SetTask(s, t, Calling(BoundCall(s, d, kind), Queued))
  }

  ghost predicate CanOpenStale(s: State, t: Tid, d: DbId) {
    t !in s.tasks && Bound(s, d) && !Usable(s.slots, s.dbs[d].lease.value)
  }

  ghost function OpenStale(s: State, t: Tid, d: DbId): State
    requires CanOpenStale(s, t, d)
  {
    SetTask(s, t, Opening(d, s.dbs[d].session, StaleWait))
  }

  /** The reopening task gets the call lock and takes the stale lease. */
  ghost predicate CanStaleTake(s: State, t: Tid) {
    && t in s.tasks && s.tasks[t].Opening? && s.tasks[t].open.StaleWait?
    && s.tasks[t].d in s.dbs && s.dbs[s.tasks[t].d].lease.Some?
    && s.dbs[s.tasks[t].d].lease.value.worker in s.slots
    && CallFree(s.tasks, s.dbs[s.tasks[t].d].lease.value.worker)
  }

  ghost function StaleTake(s: State, t: Tid): State
    requires CanStaleTake(s, t)
  {
    var k := s.tasks[t];
    var b := s.dbs[k.d].lease.value;
    s.(dbs := Unbound(s, k.d), tasks := s.tasks[t := k.(open := StaleTaken(b.worker, b.lease))])
  }

  predicate CanStaleRetire(s: State, t: Tid) {
    t in s.tasks && s.tasks[t].Opening? && s.tasks[t].open.StaleTaken? && s.tasks[t].open.w in s.slots
  }

  function StaleRetire(s: State, t: Tid): State
    requires CanStaleRetire(s, t)
  {
    var k := s.tasks[t];
    SetTask(KillForLease(s, k.open.w, k.open.l), t, k.(open := NeedLease))
  }

  ghost predicate CanOpenFresh(s: State, t: Tid, d: DbId) {
    t !in s.tasks && d in s.dbs && DbFree(s.tasks, d) && s.dbs[d].lease == None
  }

  ghost function OpenFresh(s: State, t: Tid, d: DbId): State
    requires CanOpenFresh(s, t, d)
  {
    SetTask(s, t, Opening(d, s.dbs[d].session, NeedLease))
  }

  /** Draw a generation from the database and a lease id from the pool. */
  ghost predicate CanDraw(s: State, t: Tid) {
    && t in s.tasks && s.tasks[t].Opening? && s.tasks[t].open.NeedLease? && s.tasks[t].d in s.dbs
    && PoolFree(s.tasks)
    && s.dbs[s.tasks[t].d].nextGen < s.cfg.maxGen && s.pool.nextLid < s.cfg.maxLid
  }

  ghost function Draw(s: State, t: Tid): State
    requires CanDraw(s, t)
  {
    var k := s.tasks[t];
    var g, l := s.dbs[k.d].nextGen + 1, s.pool.nextLid + 1;
    s.(dbs := s.dbs[k.d := s.dbs[k.d].(nextGen := g)],
       pool := s.pool.(nextLid := l),
       tasks := s.tasks[t := k.(open := Acquiring(g, l, Ready))])
  }

  /** The generation is spent but the acquisition fails before a lease id is drawn. */
  predicate CanDrawFail(s: State, t: Tid) {
    t in s.tasks && s.tasks[t].Opening? && s.tasks[t].open.NeedLease? && s.tasks[t].d in s.dbs
  }

  function DrawFail(s: State, t: Tid): State
    requires CanDrawFail(s, t)
  {
    var d := s.tasks[t].d;
    var db := s.dbs[d];
    var g := if db.nextGen < s.cfg.maxGen then db.nextGen + 1 else db.nextGen;
    s.(dbs := s.dbs[d := db.(nextGen := g)], tasks := s.tasks - {t})
  }

  // ---- The acquisition loop of `lease_inner` ----

  function At(k: Task, at: AcquireStage): Task
    requires k.Acquires()
  {
    k.(open := k.open.(at := at))
  }

  predicate CanRegister(s: State, t: Tid) {
    t in s.tasks && s.tasks[t].Acquires() && s.tasks[t].open.at.Ready?
  }

  function Register(s: State, t: Tid): State
    requires CanRegister(s, t)
  {
    SetTask(s, t, At(s.tasks[t], Registered(s.pool.notifications, s.losses.deaths)))
  }

  ghost predicate CanScanStart(s: State, t: Tid) {
    && t in s.tasks && s.tasks[t].Acquires() && s.tasks[t].open.at.Registered?
    && PoolFree(s.tasks) && !s.pool.shuttingDown
  }

  ghost function ScanStart(s: State, t: Tid): State
    requires CanScanStart(s, t)
  {
    var at := s.tasks[t].open.at;
    SetTask(s, t, At(s.tasks[t], Scanning(at.seen, at.deathsSeen, |s.pool.reserved|, {}, {})))
  }

  /** Visit one child under its own mutex; a leased or closing child only counts. */
  predicate CanVisit(s: State, t: Tid, w: Wid) {
    && t in s.tasks && s.tasks[t].Scans() && w in s.pool.children && w !in s.tasks[t].open.at.visited
    && w in s.slots
  }

  predicate CanVisitBusy(s: State, t: Tid, w: Wid) {
    CanVisit(s, t, w) && !s.slots[w].state.Idle?
  }

  function VisitBusy(s: State, t: Tid, w: Wid): State
    requires CanVisitBusy(s, t, w)
  {
    var at := s.tasks[t].open.at;
    SetTask(s, t, At(s.tasks[t],
      if s.slots[w].state.Dead? then at.(visited := at.visited + {w}, found := at.found + {w})
      else at.(visited := at.visited + {w}, active := at.active + 1)))
  }

  predicate FreshOpen(kind: CallKind) {
    kind.Open? && kind.freshLease
  }

  predicate CanVisitIdle(s: State, t: Tid, w: Wid, kind: CallKind) {
    CanVisit(s, t, w) && s.slots[w].state.Idle? && s.tasks[t].d in s.dbs && FreshOpen(kind)
  }

  function Installed(s: State, k: Task, w: Wid): map<DbId, Database>
    requires k.Acquires() && k.d in s.dbs
  {
    s.dbs[k.d := s.dbs[k.d].(lease := Some(Lease(w, k.open.l, k.open.g, false)))]
  }

  function InstalledCall(k: Task, w: Wid, kind: CallKind): Task
    requires k.Acquires()
  {
    Calling(Call(k.d, k.session, w, k.open.l, k.open.g, kind), Queued)
  }

  /** An idle child is leased and the lease installed; both mutexes are released. */
  function VisitIdle(s: State, t: Tid, w: Wid, kind: CallKind): State
    requires CanVisitIdle(s, t, w, kind)
  {
    var k := s.tasks[t];
    s.(slots := s.slots[w := s.slots[w].(state := Leased(k.session, k.open.l))],
       dbs := Installed(s, k, w),
       installs := s.installs[k.open.l := Install(k.d, k.open.g, w)],
       tasks := s.tasks[t := InstalledCall(k, w, kind)])
  }

  predicate ScanComplete(s: State, t: Tid) {
    t in s.tasks && s.tasks[t].Scans() && s.pool.children <= s.tasks[t].open.at.visited
  }

  predicate CanScanWait(s: State, t: Tid) {
    ScanComplete(s, t) && s.tasks[t].open.at.active >= s.cfg.maxWorkers && s.pool.reserved != map[]
  }

  function ScanWait(s: State, t: Tid): State
    requires CanScanWait(s, t)
  {
    var at := s.tasks[t].open.at;
    s.(pool := s.pool.(children := s.pool.children - at.found),
       tasks := s.tasks[t := At(s.tasks[t], Waiting(at.seen, at.deathsSeen))])
  }

  predicate CanScanReserve(s: State, t: Tid) {
    && ScanComplete(s, t) && s.tasks[t].open.at.active < s.cfg.maxWorkers
    && !s.pool.shuttingDown && s.pool.nextWid < s.cfg.maxWid
  }

  function ScanReserve(s: State, t: Tid): State
    requires CanScanReserve(s, t)
  {
    var w := s.pool.nextWid;
    s.(pool := s.pool.(children := s.pool.children - s.tasks[t].open.at.found, nextWid := w + 1,
                       reserved := s.pool.reserved[w := StartingUp(Opener(t))]),
       tasks := s.tasks[t := At(s.tasks[t], Spawning(w))])
  }

  /** The scan ends in an error: pool exhausted, identifiers exhausted, or shut down. */
  predicate CanScanFail(s: State, t: Tid) {
    && ScanComplete(s, t)
    && (if s.tasks[t].open.at.active >= s.cfg.maxWorkers then s.pool.reserved == map[]
        else s.pool.shuttingDown || s.pool.nextWid >= s.cfg.maxWid)
  }

  function ScanFail(s: State, t: Tid): State
    requires CanScanFail(s, t)
  {
    s.(pool := s.pool.(children := s.pool.children - s.tasks[t].open.at.found), tasks := s.tasks - {t})
  }

  predicate CanWake(s: State, t: Tid) {
    && t in s.tasks && s.tasks[t].Acquires() && s.tasks[t].open.at.Waiting?
    && s.pool.notifications > s.tasks[t].open.at.seen
  }

  function Wake(s: State, t: Tid): State
    requires CanWake(s, t)
  {
    SetTask(s, t, At(s.tasks[t], Ready))
  }

  /** Shutdown rejects an acquisition: a registered one under the pool lock, a waiting one by its token. */
  ghost predicate CanRejectAcquire(s: State, t: Tid) {
    && t in s.tasks && s.pool.shuttingDown && s.tasks[t].Acquires()
    && (s.tasks[t].open.at.Waiting? || (s.tasks[t].open.at.Registered? && PoolFree(s.tasks)))
  }

  ghost function RejectAcquire(s: State, t: Tid): State
    requires CanRejectAcquire(s, t)
  {
    EndTask(s, t)
  }

  // ---- Startups ----

  predicate OpenerWaits(s: State, starter: Starter) {
    starter.Opener? ==> starter.task in s.tasks && s.tasks[starter.task].Acquires() && s.tasks[starter.task].d in s.dbs
  }

  predicate CanSpawnDone(s: State, w: Wid) {
    && w in s.pool.reserved && s.pool.reserved[w].StartingUp? && OpenerWaits(s, s.pool.reserved[w].starter)
  }

  function InitialState(s: State, w: Wid): ChildState
    requires CanSpawnDone(s, w)
  {
    match s.pool.reserved[w].starter
    case Opener(t) => Leased(s.tasks[t].session, s.tasks[t].open.l)
    case Replenisher => Idle
  }

  function SpawnDone(s: State, w: Wid): State
    requires CanSpawnDone(s, w)
  {
    s.(slots := s.slots[w := Slot(InitialState(s, w), true, None, None)],
       pool := s.pool.(reserved := s.pool.reserved[w := Started(s.pool.reserved[w].starter)]))
  }

  /** A startup is given up: it failed, or shutdown refuses to install it. An
      opener waiting for it gets an error. */
  predicate CanGiveUp(s: State, w: Wid) {
    && w in s.pool.reserved
    && (s.pool.reserved[w].StartingUp? || (s.pool.reserved[w].Started? && s.pool.shuttingDown))
  }

  function GiveUp(s: State, w: Wid): State
    requires w in s.pool.reserved && !s.pool.reserved[w].Abandoned?
  {
    s.(pool := s.pool.(reserved := s.pool.reserved[w := Abandoned]),
       tasks := match s.pool.reserved[w].starter
                case Opener(t) => s.tasks - {t}
                case Replenisher => s.tasks)
  }

  ghost predicate CanInstallIdle(s: State, w: Wid) {
    && w in s.pool.reserved && s.pool.reserved[w] == Started(Replenisher)
    && PoolFree(s.tasks) && !s.pool.shuttingDown
  }

  ghost function InstallIdle(s: State, w: Wid): State
    requires CanInstallIdle(s, w)
  {
    s.(pool := Notify(s.pool).(children := s.pool.children + {w}, reserved := s.pool.reserved - {w}))
  }

  ghost predicate CanInstallLeased(s: State, w: Wid, kind: CallKind) {
    && w in s.pool.reserved && s.pool.reserved[w].Started? && s.pool.reserved[w].starter.Opener?
    && OpenerWaits(s, s.pool.reserved[w].starter)
    && PoolFree(s.tasks) && !s.pool.shuttingDown && FreshOpen(kind)
  }

  ghost function InstallLeased(s: State, w: Wid, kind: CallKind): State
    requires CanInstallLeased(s, w, kind)
  {
    var t := s.pool.reserved[w].starter.task;
    var k := s.tasks[t];
    s.(pool := Notify(s.pool).(children := s.pool.children + {w}, reserved := s.pool.reserved - {w}),
       dbs := Installed(s, k, w),
       installs := s.installs[k.open.l := Install(k.d, k.open.g, w)],
       tasks := s.tasks[t := InstalledCall(k, w, kind)])
  }

  predicate CanDiscard(s: State, w: Wid) {
    && w in s.pool.reserved && s.pool.reserved[w].Abandoned?
    && w in s.slots && s.slots[w].state != Dead
  }

  function Discard(s: State, w: Wid): State
    requires CanDiscard(s, w)
  {
    Kill(s, w)
  }

  ghost predicate CanDropReservation(s: State, w: Wid) {
    && w in s.pool.reserved && s.pool.reserved[w].Abandoned? && PoolFree(s.tasks)
    && (w in s.slots ==> s.slots[w].state == Dead)
  }

  ghost function DropReservation(s: State, w: Wid): State
    requires CanDropReservation(s, w)
  {
    s.(pool := Notify(s.pool).(reserved := s.pool.reserved - {w}))
  }

  // ---- Calls ----

  /** `required_handle_for_generation`. */
  ghost predicate CanCallStart(s: State, t: Tid, d: DbId, expected: Option<Gen>, kind: CallKind) {
    && t !in s.tasks && Bound(s, d) && kind.Ordinary?
    && (expected.Some? ==> s.dbs[d].lease.value.generation == expected.value)
  }

  ghost function CallStart(s: State, t: Tid, d: DbId, expected: Option<Gen>, kind: CallKind): State
    requires CanCallStart(s, t, d, expected, kind)
  {
    SetTask(s, t, Calling(BoundCall(s, d, kind), Queued))
  }

  ghost predicate CanLockCall(s: State, t: Tid) {
    t in s.tasks && s.tasks[t].Calling? && s.tasks[t].call.Queued? && CallFree(s.tasks, s.tasks[t].c.worker)
  }

  ghost function LockCall(s: State, t: Tid): State
    requires CanLockCall(s, t)
  {
    SetTask(s, t, s.tasks[t].(call := Locked))
  }

  /** Admission check of the slot state against the lease of the handle. */
  predicate Admits(slots: map<Wid, Slot>, c: Call) {
    c.worker in slots && slots[c.worker].state == Leased(c.session, c.lease)
  }

  predicate CanRejectCall(s: State, t: Tid) {
    && t in s.tasks && s.tasks[t].Calling? && s.tasks[t].call.Locked? && s.tasks[t].c.worker in s.slots
    && !Admits(s.slots, s.tasks[t].c)
  }

  function RejectCall(s: State, t: Tid): State
    requires CanRejectCall(s, t)
  {
    var dead := s.slots[s.tasks[t].c.worker].state.Dead?;
    SetTask(s, t, s.tasks[t].(call := Failed(if dead then WorkerCrashed else DatabaseReplaced)))
  }

  /** The call ends as never dispatched (queue full, cancelled, timed out, drained). */
  predicate CanNeverDispatch(s: State, t: Tid) {
    t in s.tasks && s.tasks[t].Calling? && (s.tasks[t].call.Queued? || s.tasks[t].call.Locked?)
  }

  function NeverDispatch(s: State, t: Tid): State
    requires CanNeverDispatch(s, t)
  {
    EndTask(s, t)
  }

  /** Send the request (or fail to), publish an open's intent, arm retirement. */
  predicate CanSend(s: State, t: Tid) {
    t in s.tasks && s.tasks[t].Calling? && s.tasks[t].call.Locked? && Admits(s.slots, s.tasks[t].c)
  }

  function Send(s: State, t: Tid, ok: bool): State
    requires CanSend(s, t)
  {
    var k := s.tasks[t];
    var slot := s.slots[k.c.worker];
    if ok && k.c.kind.Open? then
      s.(slots := s.slots[k.c.worker := slot.(path := Some(k.c.kind.target), artifacts := k.c.kind.snapshot)],
         tasks := s.tasks[t := k.(call := Running(true, slot.path))])
    else
      SetTask(s, t, k.(call := Running(ok, None)))
  }

  predicate RunningOn(s: State, t: Tid) {
    t in s.tasks && s.tasks[t].Calling? && s.tasks[t].call.Running? && s.tasks[t].c.worker in s.slots
  }

  /** The call is cancelled, times out, loses its transport or gets a fatal reply. */
  predicate CanRetireCall(s: State, t: Tid, cause: RetireCause) {
    && RunningOn(s, t)
    && (cause.FatalReply? ==> FatalReplyRetires(s.tasks[t].c.kind.ToolOf(), cause.message))
    && (cause.LostAtSettlement? ==>
          && s.tasks[t].c.kind.Open?
          && (s.slots[s.tasks[t].c.worker].state == Dead || !s.slots[s.tasks[t].c.worker].transport))
  }

  function RetireCall(s: State, t: Tid, cause: RetireCause): State
    requires CanRetireCall(s, t, cause)
  {
    var k := s.tasks[t];
    SetTask(KillForLease(s, k.c.worker, k.c.lease), t, k.(call := Failed(RetireError(cause))))
  }

  datatype Reply =
    | Success(parsed: bool, path: Path, retained: bool)
    | ErrorResult(message: string)
    | ProtocolError

  /** A reply that does not retire the worker. */
  predicate Settles(tool: Tool, reply: Reply) {
    reply.ErrorResult? ==> !FatalReplyRetires(tool, reply.message)
  }

  function ReplyError(reply: Reply): ToolError {
    match reply
    case Success(_, _, _) => RemoteProtocol
    case ErrorResult(message) => ClassifyChildError(message)
    case ProtocolError => RemoteCall
  }

  predicate StartRetains(tool: Tool, reply: Reply) {
    && (tool.DebugLaunch? || tool.DebugAttach?)
    && ((reply.Success? && reply.parsed && reply.retained)
        || (reply.ErrorResult? && ClassifyChildError(reply.message).DebuggerStartRetained?))
  }

  predicate StopSucceeds(tool: Tool, reply: Reply) {
    tool.DebugStop? && reply.Success? && reply.parsed
  }

  predicate CanSettleCall(s: State, t: Tid, reply: Reply) {
    && RunningOn(s, t) && s.tasks[t].call.sent && s.tasks[t].c.kind.Ordinary?
    && Settles(s.tasks[t].c.kind.tool, reply)
  }

  function SettleCall(s: State, t: Tid, reply: Reply): State
    requires CanSettleCall(s, t, reply)
  {
    var k := s.tasks[t];
    if StartRetains(k.c.kind.tool, reply) then SetTask(s, t, k.(call := Pinning(true)))
    else if StopSucceeds(k.c.kind.tool, reply) then SetTask(s, t, k.(call := Pinning(false)))
    else EndTask(s, t)
  }

  predicate CanSettleOpen(s: State, t: Tid, reply: Reply) {
    && RunningOn(s, t) && s.tasks[t].call.sent && s.tasks[t].c.kind.Open?
    && Settles(OpenIdb, reply)
    && s.slots[s.tasks[t].c.worker].state != Dead && s.slots[s.tasks[t].c.worker].transport
  }

  function SettledPath(slot: Slot, previous: Option<Path>, reply: Reply): Option<Path> {
    if !reply.Success? then previous else if reply.parsed then Some(reply.path) else slot.path
  }

  /** Commit or roll back the open; a slot of another lease is left alone. */
  function SettleOpen(s: State, t: Tid, reply: Reply): State
    requires CanSettleOpen(s, t, reply)
  {
    var k := s.tasks[t];
    var w := k.c.worker;
    if !s.slots[w].state.BelongsTo(k.c.lease) then
      SetTask(s, t, k.(call := Failed(DatabaseReplaced)))
    else
      s.(slots := s.slots[w := s.slots[w].(artifacts := None, path := SettledPath(s.slots[w], k.call.previous, reply))],
         tasks := if reply.Success? && reply.parsed then s.tasks - {t}
                  else s.tasks[t := k.(call := Failed(ReplyError(reply)))])
  }

  /** The caller of a failed call: clear the binding, release it, or leave it. */
  ghost predicate CanUnbind(s: State, t: Tid) {
    && t in s.tasks && s.tasks[t].Calling? && s.tasks[t].call.Failed?
    && s.tasks[t].c.db in s.dbs && DbFree(s.tasks, s.tasks[t].c.db)
  }

  predicate SameGeneration(s: State, c: Call) {
    c.db in s.dbs && s.dbs[c.db].lease.Some? && s.dbs[c.db].lease.value.generation == c.generation
  }

  predicate SameLease(s: State, c: Call) {
    SameGeneration(s, c) && s.dbs[c.db].lease.value.worker == c.worker
  }

  ghost function Unbind(s: State, t: Tid): State
    requires CanUnbind(s, t)
  {
    var c, e := s.tasks[t].c, s.tasks[t].call.error;
    if c.kind.Open? && OpenErrorReleasesLease(c.kind.freshLease, e) && SameGeneration(s, c) then
      var b := s.dbs[c.db].lease.value;
      s.(dbs := Unbound(s, c.db), tasks := s.tasks[t := Disposing(b.worker, b.lease, Releasing)])
    else if c.kind.Ordinary? && CallErrorClearsLease(e) && SameLease(s, c) then
      s.(dbs := Unbound(s, c.db), tasks := s.tasks - {t})
    else EndTask(s, t)
  }

  /** `set_debug_pin_for_lease`. */
  ghost predicate CanPin(s: State, t: Tid) {
    && t in s.tasks && s.tasks[t].Calling? && s.tasks[t].call.Pinning?
    && s.tasks[t].c.db in s.dbs && DbFree(s.tasks, s.tasks[t].c.db)
  }

  ghost function Pin(s: State, t: Tid): State
    requires CanPin(s, t)
  {
    var c, pinned := s.tasks[t].c, s.tasks[t].call.pinned;
    if SameLease(s, c) then
      var b := s.dbs[c.db].lease.value;
      s.(dbs := s.dbs[c.db := s.dbs[c.db].(lease := Some(b.(debugPinned := pinned)))],
         tasks := s.tasks - {t})
    else EndTask(s, t)
  }

  // ---- Giving leases back ----

  /** `close`, `close_authorized`, `close_if_generation`, or the drop of the database. */
  ghost predicate CanClose(s: State, t: Tid, d: DbId, expected: Option<Gen>) {
    && t !in s.tasks && Bound(s, d)
    && (expected.Some? ==> s.dbs[d].lease.value.generation == expected.value)
  }

  ghost function Close(s: State, t: Tid, d: DbId, expected: Option<Gen>): State
    requires CanClose(s, t, d, expected)
  {
    var b := s.dbs[d].lease.value;
    s.(dbs := Unbound(s, d), tasks := s.tasks[t := Disposing(b.worker, b.lease, Releasing)])
  }

  ghost predicate CanReleaseLock(s: State, t: Tid) {
    && t in s.tasks && s.tasks[t].Disposing? && s.tasks[t].how.Releasing? && s.tasks[t].w in s.slots
    && CallFree(s.tasks, s.tasks[t].w)
  }

  ghost function ReleaseLock(s: State, t: Tid): State
    requires CanReleaseLock(s, t)
  {
    var k := s.tasks[t];
    if s.slots[k.w].state.BelongsTo(k.l) then
      s.(slots := s.slots[k.w := s.slots[k.w].(state := ChildState.Closing(k.l))],
         tasks := s.tasks[t := k.(how := ClosingDown)])
    else EndTask(s, t)
  }

  predicate InRelease(s: State, t: Tid) {
    t in s.tasks && s.tasks[t].Disposing? && s.tasks[t].how.ClosingDown? && s.tasks[t].w in s.slots
  }

  /** `close_idb` failed in a way that retires the worker. */
  function ReleaseRetire(s: State, t: Tid): State
    requires InRelease(s, t)
  {
    EndTask(KillForLease(s, s.tasks[t].w, s.tasks[t].l), t)
  }

  /** `close_idb` settled: the slot goes idle without another look at its lease. */
  function ReleaseIdle(s: State, t: Tid): State
    requires InRelease(s, t)
  {
    var w := s.tasks[t].w;
    if s.slots[w].state == Dead then EndTask(s, t)
    else
      s.(slots := s.slots[w := s.slots[w].(state := Idle, path := None, artifacts := None)],
         pool := Notify(s.pool),
         tasks := s.tasks - {t})
  }

  /** The reaper finds a lease whose worker is dead or disconnected and takes it. */
  ghost predicate CanReapTake(s: State, t: Tid, d: DbId) {
    && t !in s.tasks && Bound(s, d)
    && (s.slots[s.dbs[d].lease.value.worker].state == Dead || !s.slots[s.dbs[d].lease.value.worker].transport)
  }

  ghost function ReapTake(s: State, t: Tid, d: DbId): State
    requires CanReapTake(s, t, d)
  {
    var b := s.dbs[d].lease.value;
    s.(dbs := Unbound(s, d), tasks := s.tasks[t := Disposing(b.worker, b.lease, Reaping)])
  }

  predicate CanReapMark(s: State, t: Tid) {
    t in s.tasks && s.tasks[t].Disposing? && s.tasks[t].how.Reaping? && s.tasks[t].w in s.slots
  }

  function ReapMark(s: State, t: Tid): State
    requires CanReapMark(s, t)
  {
    EndTask(KillAny(s, s.tasks[t].w), t)
  }

  // ---- Retirement and replenishment ----

  predicate CanGuardRetire(s: State, w: Wid, l: Lid) {
    (w, l) in s.losses.retiring && w in s.slots
  }

  function GuardRetire(s: State, w: Wid, l: Lid): State
    requires CanGuardRetire(s, w, l)
  {
    var s1 := KillForLease(s, w, l);
    s1.(losses := s1.losses.(retiring := s1.losses.retiring - {(w, l)}))
  }

  /** An idle worker expires. The reaper reads the children one by one, so its
      count of live ones may be stale by now and the machine does not rely on it. */
  ghost predicate CanIdleReap(s: State, w: Wid) {
    w in s.pool.children && w in s.slots && s.slots[w].state.Idle? && PoolFree(s.tasks)
  }

  ghost function IdleReap(s: State, w: Wid): State
    requires CanIdleReap(s, w)
  {
    Kill(s, w)
  }

  /** `forget_slot`; replenishment is due after it, scheduled or not. */
  ghost predicate CanForget(s: State, w: Wid) {
    w in s.losses.forgetting && PoolFree(s.tasks)
  }

  ghost function Forget(s: State, w: Wid): State
    requires CanForget(s, w)
  {
    s.(pool := Notify(s.pool).(children := s.pool.children - {w}, replenishDue := true),
       losses := s.losses.(forgetting := s.losses.forgetting - {w}))
  }

  /** The future that was to forget the slot is dropped first. */
  predicate CanForgetLost(s: State, w: Wid) { w in s.losses.forgetting }

  function ForgetLost(s: State, w: Wid): State
    requires CanForgetLost(s, w)
  {
    s.(losses := s.losses.(forgetting := s.losses.forgetting - {w}))
  }

  /** The reservation loop of `schedule_replenishment`. */
  function Refill(cfg: Config, p: PoolInner): PoolInner
    decreases cfg.maxWid - p.nextWid
  {
    if !p.shuttingDown && |p.reserved| + |p.children| < cfg.Floor() && p.nextWid < cfg.maxWid
    then Refill(cfg, p.(reserved := p.reserved[p.nextWid := StartingUp(Replenisher)], nextWid := p.nextWid + 1))
    else p
  }

  ghost predicate CanReplenish(s: State) { s.pool.replenishDue && PoolFree(s.tasks) }

  ghost function Replenish(s: State): State
    requires CanReplenish(s)
  {
    s.(pool := Refill(s.cfg, s.pool.(replenishDue := false)))
  }

  // ---- Shutdown ----

  ghost predicate CanShutBegin(s: State) { PoolFree(s.tasks) }

  ghost function ShutBegin(s: State): State
    requires CanShutBegin(s)
  {
    s.(pool := s.pool.(shuttingDown := true))
  }

  /** Every startup token is gone; take the children that are left. */
  ghost predicate CanShutSnapshot(s: State) {
    s.pool.shuttingDown && s.pool.shut.Serving? && s.pool.reserved == map[] && PoolFree(s.tasks)
  }

  ghost function ShutSnapshot(s: State): State
    requires CanShutSnapshot(s)
  {
    s.(pool := s.pool.(shut := Draining(s.pool.children)))
  }

  predicate CanShutMark(s: State, w: Wid) {
    s.pool.shut.Draining? && w in s.pool.shut.left && w in s.slots && s.slots[w].state != Dead
  }

  function ShutMark(s: State, w: Wid): State
    requires CanShutMark(s, w)
  {
    Kill(s, w)
  }

  ghost predicate CanShutForget(s: State, w: Wid) {
    && s.pool.shut.Draining? && w in s.pool.shut.left && PoolFree(s.tasks)
    && (w in s.slots ==> s.slots[w].state == Dead)
  }

  ghost function ShutForget(s: State, w: Wid): State
    requires CanShutForget(s, w)
  {
    s.(pool := Notify(s.pool).(children := s.pool.children - {w}, shut := Draining(s.pool.shut.left - {w})))
  }

  predicate CanShutDone(s: State) { s.pool.shut.Draining? && s.pool.shut.left == {} }

  function ShutDone(s: State): State
    requires CanShutDone(s)
  {
    s.(pool := s.pool.(shut := Drained))
  }

  // ---- Environment ----

  predicate CanLoseTransport(s: State, w: Wid) { w in s.slots }

  function LoseTransport(s: State, w: Wid): State
    requires CanLoseTransport(s, w)
  {
    s.(slots := s.slots[w := s.slots[w].(transport := false)])
  }

  // ---- Dropped futures ----

  /** Tasks that run inside a request future, which may be dropped at any await. */
  predicate CanDrop(s: State, t: Tid) {
    t in s.tasks && !(s.tasks[t].Disposing? && s.tasks[t].how.Reaping?)
  }

  function Guarded(s: State, w: Wid, l: Lid): Losses {
    s.losses.(retiring := s.losses.retiring + {(w, l)})
  }

  /** Locks are released; an armed guard schedules retirement, a reservation its cleanup. */
  function Drop(s: State, t: Tid): State
    requires CanDrop(s, t)
  {
    var k := s.tasks[t];
    if k.Disposing? then s.(losses := Guarded(s, k.w, k.l), tasks := s.tasks - {t})
    else if k.Calling? && k.call.Running? then
      s.(losses := Guarded(s, k.c.worker, k.c.lease), tasks := s.tasks - {t})
    else if k.Acquires() && k.open.at.Spawning? then
      s.(pool := s.pool.(reserved := s.pool.reserved[k.open.at.w := Abandoned]), tasks := s.tasks - {t})
    else EndTask(s, t)
  }
}
