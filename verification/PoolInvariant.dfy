/** The inductive invariant of the pool machine: who may touch which slot.
    Each part quantifies over one named fact per element, so that a proof
    unfolds only the facts it mentions. */
module PoolInvariant {
  import opened Wrappers
  import opened PoolState

  // ---- Mutexes ----

  ghost predicate LocksApart(tasks: map<Tid, Task>, t: Tid, u: Tid) {
    t in tasks && u in tasks && t != u ==>
      && !(tasks[t].Opening? && tasks[u].Opening? && tasks[t].d == tasks[u].d)
      && (forall w :: tasks[t].HoldsCall(w) ==> !tasks[u].HoldsCall(w))
      && !(tasks[t].Scans() && tasks[u].Scans())
  }

  /** Every mutex has at most one holder. */
  ghost predicate UniqueLocks(tasks: map<Tid, Task>) {
    forall t, u {:trigger LocksApart(tasks, t, u)} :: LocksApart(tasks, t, u)
  }

  // ---- Holders of leases ----

  ghost predicate DbHolds(dbs: map<DbId, Database>, d: DbId, l: Lid) {
    d in dbs && dbs[d].lease.Some? && dbs[d].lease.value.lease == l
  }

  ghost predicate TaskHolds(tasks: map<Tid, Task>, t: Tid, l: Lid) {
    t in tasks && tasks[t].HoldsLease(l)
  }

  ghost predicate DbsApart(dbs: map<DbId, Database>, d: DbId, e: DbId) {
    forall l :: DbHolds(dbs, d, l) && DbHolds(dbs, e, l) ==> d == e
  }

  ghost predicate TasksApart(tasks: map<Tid, Task>, t: Tid, u: Tid) {
    forall l :: TaskHolds(tasks, t, l) && TaskHolds(tasks, u, l) ==> t == u
  }

  ghost predicate DbTaskApart(dbs: map<DbId, Database>, tasks: map<Tid, Task>, d: DbId, t: Tid) {
    forall l :: DbHolds(dbs, d, l) ==> !TaskHolds(tasks, t, l)
  }

  /** Every lease id is held by at most one database binding or task. */
  ghost predicate UniqueHolders(dbs: map<DbId, Database>, tasks: map<Tid, Task>) {
    && (forall d, e {:trigger DbsApart(dbs, d, e)} :: DbsApart(dbs, d, e))
    && (forall t, u {:trigger TasksApart(tasks, t, u)} :: TasksApart(tasks, t, u))
    && (forall d, t {:trigger DbTaskApart(dbs, tasks, d, t)} :: DbTaskApart(dbs, tasks, d, t))
  }

  // ---- Database handles ----

  /** An opener owns its database handle: it holds a stale lease or none. */
  ghost predicate HandleOk(dbs: map<DbId, Database>, k: Task) {
    match k
    case Opening(d, session, open) =>
      && d in dbs && dbs[d].session == session && (dbs[d].lease.Some? <==> open.StaleWait?)
      && (open.Acquiring? ==> open.g <= dbs[d].nextGen)
    case Calling(c, _) => c.db in dbs && dbs[c.db].session == c.session
    case Disposing(_, _, _) => true
  }

  ghost predicate HandleAt(dbs: map<DbId, Database>, tasks: map<Tid, Task>, t: Tid) {
    t in tasks ==> HandleOk(dbs, tasks[t])
  }

  ghost predicate Handles(dbs: map<DbId, Database>, tasks: map<Tid, Task>) {
    forall t {:trigger HandleAt(dbs, tasks, t)} :: HandleAt(dbs, tasks, t)
  }

  // ---- Where leases were installed ----

  ghost predicate InstallAt(dbs: map<DbId, Database>, installs: map<Lid, Install>, nextLid: nat, l: Lid) {
    l in installs ==>
      l <= nextLid && installs[l].db in dbs && installs[l].generation <= dbs[installs[l].db].nextGen
  }

  ghost predicate InstallsApart(installs: map<Lid, Install>, l: Lid, m: Lid) {
    l in installs && m in installs && l != m ==>
      installs[l].db != installs[m].db || installs[l].generation != installs[m].generation
  }

  ghost predicate BoundAt(dbs: map<DbId, Database>, installs: map<Lid, Install>, d: DbId) {
    d in dbs && dbs[d].lease.Some? ==>
      var b := dbs[d].lease.value;
      b.lease in installs && installs[b.lease] == Install(d, b.generation, b.worker)
  }

  /** A lease id is installed at most once, at a generation of its own. */
  ghost predicate InstallsOk(dbs: map<DbId, Database>, installs: map<Lid, Install>, nextLid: nat) {
    && (forall l {:trigger InstallAt(dbs, installs, nextLid, l)} :: InstallAt(dbs, installs, nextLid, l))
    && (forall l, m {:trigger InstallsApart(installs, l, m)} :: InstallsApart(installs, l, m))
    && (forall d {:trigger BoundAt(dbs, installs, d)} :: BoundAt(dbs, installs, d))
  }

  /** A task's lease is a fresh one to install, or was installed where it says. */
  ghost predicate ClaimOk(k: Task, installs: map<Lid, Install>, nextLid: nat) {
    match k
    case Opening(d, _, open) =>
      && (open.StaleTaken? ==> open.l in installs && installs[open.l].worker == open.w)
      && (open.Acquiring? ==>
            && open.l <= nextLid && open.l !in installs
            && (forall i :: i in installs && installs[i].db == d ==> installs[i].generation < open.g))
    case Calling(c, _) => c.lease in installs && installs[c.lease] == Install(c.db, c.generation, c.worker)
    case Disposing(w, l, _) => l in installs && installs[l].worker == w
  }

  ghost predicate ClaimAt(tasks: map<Tid, Task>, installs: map<Lid, Install>, nextLid: nat, t: Tid) {
    t in tasks ==> ClaimOk(tasks[t], installs, nextLid) && (forall l: Lid :: tasks[t].HoldsLease(l) ==> l <= nextLid)
  }

  ghost predicate Claims(tasks: map<Tid, Task>, installs: map<Lid, Install>, nextLid: nat) {
    forall t {:trigger ClaimAt(tasks, installs, nextLid, t)} :: ClaimAt(tasks, installs, nextLid, t)
  }

  // ---- What is known about slots ----

  /** A slot is dead or leased under `l`. */
  ghost predicate Placed(slots: map<Wid, Slot>, w: Wid, l: Lid) {
    && w in slots
    && (slots[w].state == Dead || (slots[w].state.Leased? && slots[w].state.lease == l))
  }

  ghost predicate PlacedFor(slots: map<Wid, Slot>, w: Wid, session: Session, l: Lid) {
    w in slots && (slots[w].state == Dead || slots[w].state == Leased(session, l))
  }

  /** What a task may rely on about its slot. */
  ghost predicate SlotOk(slots: map<Wid, Slot>, k: Task) {
    match k
    case Opening(_, _, open) => open.StaleTaken? ==> Placed(slots, open.w, open.l)
    case Calling(c, call) =>
      && c.worker in slots
      && (call.Running? ==>
            && PlacedFor(slots, c.worker, c.session, c.lease)
            && (call.sent && c.kind.Open? && slots[c.worker].state != Dead ==>
                  slots[c.worker].path == Some(c.kind.target) && slots[c.worker].artifacts == c.kind.snapshot))
    case Disposing(w, l, how) =>
      if how.ClosingDown?
      then w in slots && (slots[w].state == Dead || slots[w].state == ChildState.Closing(l))
      else Placed(slots, w, l)
  }

  ghost predicate SlotAt(slots: map<Wid, Slot>, tasks: map<Tid, Task>, t: Tid) {
    t in tasks ==> SlotOk(slots, tasks[t])
  }

  ghost predicate BindingAt(slots: map<Wid, Slot>, dbs: map<DbId, Database>, d: DbId) {
    d in dbs && dbs[d].lease.Some? ==>
      PlacedFor(slots, dbs[d].lease.value.worker, dbs[d].session, dbs[d].lease.value.lease)
  }

  ghost predicate Slots(slots: map<Wid, Slot>, dbs: map<DbId, Database>, tasks: map<Tid, Task>) {
    && (forall t {:trigger SlotAt(slots, tasks, t)} :: SlotAt(slots, tasks, t))
    && (forall d {:trigger BindingAt(slots, dbs, d)} :: BindingAt(slots, dbs, d))
  }

  // ---- The pool's lists ----

  /** Worker ids are below the counter; a live slot is a child or a reservation. */
  ghost predicate WorkerAt(children: set<Wid>, reserved: map<Wid, Reservation>, nextWid: nat, slots: map<Wid, Slot>, w: Wid) {
    && (w in slots || w in reserved ==> w < nextWid)
    && (w in children ==> w in slots && w !in reserved)
    && (w in slots && slots[w].state != Dead ==> w in children || w in reserved)
  }

  ghost predicate Workers(children: set<Wid>, reserved: map<Wid, Reservation>, nextWid: nat, slots: map<Wid, Slot>) {
    forall w {:trigger WorkerAt(children, reserved, nextWid, slots, w)} :: WorkerAt(children, reserved, nextWid, slots, w)
  }

  ghost predicate LossAt(slots: map<Wid, Slot>, losses: Losses, w: Wid) {
    && (w in losses.forgetting ==> w in slots && slots[w].state == Dead)
    && (w in losses.handed <==> w in slots && slots[w].state == Dead)
    && (w in slots && slots[w].state == Dead ==> slots[w] == Slot(Dead, false, None, None))
    && (forall l :: (w, l) in losses.retiring ==> w in slots)
  }

  /** Pending retirements name real slots; a dead slot has handed over everything, once. */
  ghost predicate LossesOk(slots: map<Wid, Slot>, losses: Losses) {
    forall w {:trigger LossAt(slots, losses, w)} :: LossAt(slots, losses, w)
  }

  predicate Spawns(k: Task) {
    k.Acquires() && k.open.at.Spawning?
  }

  /** The opener a reservation works for is waiting for exactly that reservation. */
  ghost predicate StarterOk(tasks: map<Tid, Task>, w: Wid, starter: Starter) {
    starter.Opener? ==>
      && starter.task in tasks && tasks[starter.task].Acquires() && tasks[starter.task].open.at == Spawning(w)
  }

  ghost predicate ReservationOk(r: Reservation, w: Wid, slots: map<Wid, Slot>, tasks: map<Tid, Task>) {
    match r
    case StartingUp(starter) => w !in slots && StarterOk(tasks, w, starter)
    case Started(starter) =>
      && w in slots && StarterOk(tasks, w, starter)
      && (if starter.Opener?
          then PlacedFor(slots, w, tasks[starter.task].session, tasks[starter.task].open.l)
          else slots[w].state.Idle? || slots[w].state.Dead?)
    case Abandoned => true
  }

  ghost predicate ReservationAt(reserved: map<Wid, Reservation>, slots: map<Wid, Slot>, tasks: map<Tid, Task>, w: Wid) {
    w in reserved ==> ReservationOk(reserved[w], w, slots, tasks)
  }

  ghost predicate SpawnerAt(reserved: map<Wid, Reservation>, tasks: map<Tid, Task>, t: Tid) {
    t in tasks && Spawns(tasks[t]) ==>
      var w := tasks[t].open.at.w;
      w in reserved && !reserved[w].Abandoned? && reserved[w].starter == Opener(t)
  }

  ghost predicate Reservations(reserved: map<Wid, Reservation>, slots: map<Wid, Slot>, tasks: map<Tid, Task>) {
    && (forall w {:trigger ReservationAt(reserved, slots, tasks, w)} :: ReservationAt(reserved, slots, tasks, w))
    && (forall t {:trigger SpawnerAt(reserved, tasks, t)} :: SpawnerAt(reserved, tasks, t))
  }

  /** A scan only ever removes dead children. */
  ghost predicate ScanOk(k: Task, children: set<Wid>, slots: map<Wid, Slot>) {
    k.Scans() ==>
      && k.open.at.found <= k.open.at.visited <= children
      && (forall w :: w in k.open.at.found ==> w in slots && slots[w].state == Dead)
  }

  ghost predicate ScanAt(children: set<Wid>, slots: map<Wid, Slot>, tasks: map<Tid, Task>, t: Tid) {
    t in tasks ==> ScanOk(tasks[t], children, slots)
  }

  ghost predicate ScansOk(children: set<Wid>, slots: map<Wid, Slot>, tasks: map<Tid, Task>) {
    forall t {:trigger ScanAt(children, slots, tasks, t)} :: ScanAt(children, slots, tasks, t)
  }

  ghost predicate Inv(s: State) {
    && UniqueLocks(s.tasks)
    && UniqueHolders(s.dbs, s.tasks)
    && Handles(s.dbs, s.tasks)
    && InstallsOk(s.dbs, s.installs, s.pool.nextLid)
    && Claims(s.tasks, s.installs, s.pool.nextLid)
    && Slots(s.slots, s.dbs, s.tasks)
    && Workers(s.pool.children, s.pool.reserved, s.pool.nextWid, s.slots)
    && LossesOk(s.slots, s.losses)
    && Reservations(s.pool.reserved, s.slots, s.tasks)
    && ScansOk(s.pool.children, s.slots, s.tasks)
  }
}
