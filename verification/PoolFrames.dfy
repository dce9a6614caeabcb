/** How the parts of the pool invariant survive the elementary changes that the
    steps are made of: one task set or ended, one lease moved, one slot changed. */
module PoolFrames {
  import opened Wrappers
  import opened PoolState
  import opened PoolInvariant

  // ---- Locks ----

  lemma LocksEnd(tasks: map<Tid, Task>, t: Tid)
    requires UniqueLocks(tasks)
    ensures UniqueLocks(tasks - {t})
  {
    forall u, v ensures LocksApart(tasks - {t}, u, v) { assert LocksApart(tasks, u, v); }
  }

  /** Task `t` moves to stage `k`; the locks of `k` are its own or free among the others. */
  lemma LocksSet(tasks: map<Tid, Task>, t: Tid, k: Task)
    requires UniqueLocks(tasks)
    requires k.Opening? ==> DbFree(tasks - {t}, k.d)
    requires forall w :: k.HoldsCall(w) ==> CallFree(tasks - {t}, w)
    requires k.Scans() ==> PoolFree(tasks - {t})
    ensures UniqueLocks(tasks[t := k])
  {
    var nt := tasks[t := k];
    forall u, v ensures LocksApart(nt, u, v) {
      assert LocksApart(tasks, u, v);
      assert u in tasks && u != t ==> u in tasks - {t};
      assert v in tasks && v != t ==> v in tasks - {t};
    }
  }

  /** What the locks that a task holds say about the others. */
  lemma LocksHeld(tasks: map<Tid, Task>, t: Tid)
    requires UniqueLocks(tasks) && t in tasks
    ensures tasks[t].Opening? ==> DbFree(tasks - {t}, tasks[t].d)
    ensures forall w :: tasks[t].HoldsCall(w) ==> CallFree(tasks - {t}, w)
    ensures tasks[t].Scans() ==> PoolFree(tasks - {t})
  {
    forall u | u in tasks - {t} ensures LocksApart(tasks, t, u) {}
  }

  lemma FreeWithout(tasks: map<Tid, Task>, t: Tid)
    ensures forall d :: DbFree(tasks, d) ==> DbFree(tasks - {t}, d)
    ensures forall w :: CallFree(tasks, w) ==> CallFree(tasks - {t}, w)
    ensures PoolFree(tasks) ==> PoolFree(tasks - {t})
  {
  }

  // ---- Holders of leases ----

  lemma HoldersEnd(dbs: map<DbId, Database>, tasks: map<Tid, Task>, t: Tid)
    requires UniqueHolders(dbs, tasks)
    ensures UniqueHolders(dbs, tasks - {t})
  {
    var next := tasks - {t};
    assert forall u, l :: TaskHolds(next, u, l) ==> TaskHolds(tasks, u, l);
    forall u, v ensures TasksApart(next, u, v) { assert TasksApart(tasks, u, v); }
    forall d, u ensures DbTaskApart(dbs, next, d, u) { assert DbTaskApart(dbs, tasks, d, u); }
  }

  /** Task `t` moves to stage `k` with a lease that no database and no other task holds. */
  lemma HoldersSet(dbs: map<DbId, Database>, tasks: map<Tid, Task>, t: Tid, k: Task)
    requires UniqueHolders(dbs, tasks)
    requires forall l :: k.HoldsLease(l) ==>
               (forall u :: u != t ==> !TaskHolds(tasks, u, l)) && (forall d :: !DbHolds(dbs, d, l))
    ensures UniqueHolders(dbs, tasks[t := k])
  {
    var next := tasks[t := k];
    assert forall u, l :: TaskHolds(next, u, l) ==> if u == t then k.HoldsLease(l) else TaskHolds(tasks, u, l);
    forall u, v ensures TasksApart(next, u, v) { assert TasksApart(tasks, u, v); }
    forall d, u ensures DbTaskApart(dbs, next, d, u) { assert DbTaskApart(dbs, tasks, d, u); }
  }

  /** A lease that a task already holds is held by nobody else. */
  lemma HolderAlone(dbs: map<DbId, Database>, tasks: map<Tid, Task>, t: Tid, l: Lid)
    requires UniqueHolders(dbs, tasks) && TaskHolds(tasks, t, l)
    ensures forall u :: u != t ==> !TaskHolds(tasks, u, l)
    ensures forall d :: !DbHolds(dbs, d, l)
  {
    forall u | u != t ensures !TaskHolds(tasks, u, l) { assert TasksApart(tasks, t, u); }
    forall d ensures !DbHolds(dbs, d, l) { assert DbTaskApart(dbs, tasks, d, t); }
  }

  lemma HoldersSame(dbs: map<DbId, Database>, tasks: map<Tid, Task>, t: Tid, k: Task)
    requires UniqueHolders(dbs, tasks)
    requires forall l :: k.HoldsLease(l) ==> TaskHolds(tasks, t, l)
    ensures UniqueHolders(dbs, tasks[t := k])
  {
    forall l | k.HoldsLease(l)
      ensures (forall u :: u != t ==> !TaskHolds(tasks, u, l)) && (forall d :: !DbHolds(dbs, d, l))
    {
      HolderAlone(dbs, tasks, t, l);
    }
    HoldersSet(dbs, tasks, t, k);
  }

  /** A database changes; its new lease, if any, is its old one or nobody's. */
  lemma HoldersDb(dbs: map<DbId, Database>, tasks: map<Tid, Task>, d: DbId, db: Database)
    requires UniqueHolders(dbs, tasks)
    requires db.lease.Some? ==>
               || DbHolds(dbs, d, db.lease.value.lease)
               || ((forall e :: e != d ==> !DbHolds(dbs, e, db.lease.value.lease)) && (forall u :: !TaskHolds(tasks, u, db.lease.value.lease)))
    ensures UniqueHolders(dbs[d := db], tasks)
  {
    var next := dbs[d := db];
    assert forall e, l :: DbHolds(next, e, l) ==> if e == d then db.lease.Some? && db.lease.value.lease == l else DbHolds(dbs, e, l);
    forall e, f ensures DbsApart(next, e, f) { assert DbsApart(dbs, e, f); }
    forall e, u ensures DbTaskApart(next, tasks, e, u) { assert DbTaskApart(dbs, tasks, e, u); }
  }

  /** A lease moves from its database to a task. */
  lemma HoldersTake(dbs: map<DbId, Database>, tasks: map<Tid, Task>, d: DbId, db: Database, t: Tid, k: Task)
    requires UniqueHolders(dbs, tasks) && d in dbs && dbs[d].lease.Some? && db.lease == None
    requires forall l :: k.HoldsLease(l) ==> l == dbs[d].lease.value.lease
    ensures UniqueHolders(dbs[d := db], tasks[t := k])
  {
    var l := dbs[d].lease.value.lease;
    var next := dbs[d := db];
    HoldersDb(dbs, tasks, d, db);
    forall u ensures !TaskHolds(tasks, u, l) { assert DbTaskApart(dbs, tasks, d, u) && DbHolds(dbs, d, l); }
    forall e ensures !DbHolds(next, e, l) { assert DbsApart(dbs, d, e) && DbHolds(dbs, d, l); }
    HoldersSet(next, tasks, t, k);
  }

  /** A lease moves from a task to a database. */
  lemma HoldersInstall(dbs: map<DbId, Database>, tasks: map<Tid, Task>, d: DbId, db: Database, t: Tid, k: Task)
    requires UniqueHolders(dbs, tasks) && db.lease.Some? && TaskHolds(tasks, t, db.lease.value.lease)
    requires forall l :: !k.HoldsLease(l)
    ensures UniqueHolders(dbs[d := db], tasks[t := k])
  {
    HolderAlone(dbs, tasks, t, db.lease.value.lease);
    HoldersSet(dbs, tasks, t, k);
    var nt := tasks[t := k];
    forall u ensures !TaskHolds(nt, u, db.lease.value.lease) { assert u != t ==> !TaskHolds(tasks, u, db.lease.value.lease); }
    HoldersDb(dbs, nt, d, db);
  }

  /** A task gets a lease id above every one drawn so far. */
  lemma HoldersDraw(dbs: map<DbId, Database>, tasks: map<Tid, Task>, installs: map<Lid, Install>, nextLid: nat,
                    t: Tid, k: Task)
    requires UniqueHolders(dbs, tasks) && Claims(tasks, installs, nextLid) && InstallsOk(dbs, installs, nextLid)
    requires forall l: Lid :: k.HoldsLease(l) ==> l > nextLid
    ensures UniqueHolders(dbs, tasks[t := k])
  {
    forall u, l: Lid | TaskHolds(tasks, u, l) ensures l <= nextLid { assert ClaimAt(tasks, installs, nextLid, u); }
    forall d, l: Lid | DbHolds(dbs, d, l) ensures l <= nextLid {
      assert BoundAt(dbs, installs, d) && InstallAt(dbs, installs, nextLid, l);
    }
    HoldersSet(dbs, tasks, t, k);
  }

  // ---- Handles and claims ----

  lemma HandlesEnd(dbs: map<DbId, Database>, tasks: map<Tid, Task>, t: Tid)
    requires Handles(dbs, tasks)
    ensures Handles(dbs, tasks - {t})
  {
    forall u ensures HandleAt(dbs, tasks - {t}, u) { assert HandleAt(dbs, tasks, u); }
  }

  lemma HandlesSet(dbs: map<DbId, Database>, tasks: map<Tid, Task>, t: Tid, k: Task)
    requires Handles(dbs, tasks - {t}) && HandleOk(dbs, k)
    ensures Handles(dbs, tasks[t := k])
  {
    var nt := tasks[t := k];
    forall u ensures HandleAt(dbs, nt, u) { assert HandleAt(dbs, tasks - {t}, u); }
  }

  lemma HandlesDb(dbs: map<DbId, Database>, tasks: map<Tid, Task>, d: DbId, db: Database)
    requires Handles(dbs, tasks) && (d in dbs ==> db.session == dbs[d].session && db.nextGen >= dbs[d].nextGen)
    requires DbFree(tasks, d) || (d in dbs && (db.lease.Some? <==> dbs[d].lease.Some?))
    ensures Handles(dbs[d := db], tasks)
  {
    var nd := dbs[d := db];
    forall u ensures HandleAt(nd, tasks, u) { assert HandleAt(dbs, tasks, u); }
  }

  lemma ClaimsEnd(tasks: map<Tid, Task>, installs: map<Lid, Install>, nextLid: nat, t: Tid)
    requires Claims(tasks, installs, nextLid)
    ensures Claims(tasks - {t}, installs, nextLid)
  {
    forall u ensures ClaimAt(tasks - {t}, installs, nextLid, u) { assert ClaimAt(tasks, installs, nextLid, u); }
  }

  lemma ClaimsSet(tasks: map<Tid, Task>, installs: map<Lid, Install>, nextLid: nat, t: Tid, k: Task)
    requires Claims(tasks - {t}, installs, nextLid) && ClaimOk(k, installs, nextLid)
    requires forall l: Lid :: k.HoldsLease(l) ==> l <= nextLid
    ensures Claims(tasks[t := k], installs, nextLid)
  {
    var nt := tasks[t := k];
    forall u ensures ClaimAt(nt, installs, nextLid, u) { assert ClaimAt(tasks - {t}, installs, nextLid, u); }
  }

  lemma ClaimsBump(tasks: map<Tid, Task>, installs: map<Lid, Install>, nextLid: nat, next: nat)
    requires Claims(tasks, installs, nextLid) && nextLid <= next
    ensures Claims(tasks, installs, next)
  {
    forall u ensures ClaimAt(tasks, installs, next, u) { assert ClaimAt(tasks, installs, nextLid, u); }
  }

  /** Installing the lease of an acquiring task disturbs no other claim. */
  lemma ClaimsInstall(dbs: map<DbId, Database>, tasks: map<Tid, Task>, installs: map<Lid, Install>, nextLid: nat,
                      t: Tid, i: Install)
    requires Claims(tasks, installs, nextLid) && UniqueLocks(tasks) && UniqueHolders(dbs, tasks)
    requires t in tasks && tasks[t].Acquires() && i.db == tasks[t].d
    ensures Claims(tasks - {t}, installs[tasks[t].open.l := i], nextLid)
  {
    var l := tasks[t].open.l;
    var ni := installs[l := i];
    HolderAlone(dbs, tasks, t, l);
    forall u ensures ClaimAt(tasks - {t}, ni, nextLid, u) {
      assert ClaimAt(tasks, installs, nextLid, u) && ClaimAt(tasks, installs, nextLid, t) && LocksApart(tasks, t, u);
      assert u != t ==> !TaskHolds(tasks, u, l);
    }
  }

  /** A database spends generations, or the pool lease ids. */
  lemma InstallsBump(dbs: map<DbId, Database>, installs: map<Lid, Install>, nextLid: nat, d: DbId, db: Database, next: nat)
    requires InstallsOk(dbs, installs, nextLid) && nextLid <= next
    requires if d in dbs then db.nextGen >= dbs[d].nextGen && SameBinding(dbs[d].lease, db.lease) else db.lease == None
    ensures InstallsOk(dbs[d := db], installs, next)
  {
    var nd := dbs[d := db];
    forall l ensures InstallAt(nd, installs, next, l) { assert InstallAt(dbs, installs, nextLid, l); }
    forall e ensures BoundAt(nd, installs, e) { assert BoundAt(dbs, installs, e); }
  }

  /** A binding is unchanged up to its pin, or cleared. */
  predicate SameBinding(before: Option<Lease>, now: Option<Lease>) {
    now.Some? ==> before.Some? && now.value == before.value.(debugPinned := now.value.debugPinned)
  }

  lemma InstallsInstall(dbs: map<DbId, Database>, installs: map<Lid, Install>, nextLid: nat, k: Task, db: Database, i: Install)
    requires InstallsOk(dbs, installs, nextLid) && k.Acquires() && ClaimOk(k, installs, nextLid) && HandleOk(dbs, k)
    requires i == Install(k.d, k.open.g, i.worker)
    requires db == dbs[k.d].(lease := Some(Lease(i.worker, k.open.l, k.open.g, false)))
    ensures InstallsOk(dbs[k.d := db], installs[k.open.l := i], nextLid)
  {
    var nd, ni := dbs[k.d := db], installs[k.open.l := i];
    forall l ensures InstallAt(nd, ni, nextLid, l) { assert InstallAt(dbs, installs, nextLid, l); }
    forall l, m ensures InstallsApart(ni, l, m) { assert InstallsApart(installs, l, m); }
    forall e ensures BoundAt(nd, ni, e) { assert BoundAt(dbs, installs, e); }
  }

  // ---- Slots ----

  lemma SlotsEnd(slots: map<Wid, Slot>, dbs: map<DbId, Database>, tasks: map<Tid, Task>, t: Tid)
    requires Slots(slots, dbs, tasks)
    ensures Slots(slots, dbs, tasks - {t})
  {
    forall u ensures SlotAt(slots, tasks - {t}, u) { assert SlotAt(slots, tasks, u); }
  }

  lemma SlotsSet(slots: map<Wid, Slot>, dbs: map<DbId, Database>, tasks: map<Tid, Task>, t: Tid, k: Task)
    requires Slots(slots, dbs, tasks - {t}) && SlotOk(slots, k)
    ensures Slots(slots, dbs, tasks[t := k])
  {
    var nt := tasks[t := k];
    forall u ensures SlotAt(slots, nt, u) { assert SlotAt(slots, tasks - {t}, u); }
  }

  lemma SlotsDb(slots: map<Wid, Slot>, dbs: map<DbId, Database>, tasks: map<Tid, Task>, d: DbId, db: Database)
    requires Slots(slots, dbs, tasks)
    requires db.lease.Some? ==> PlacedFor(slots, db.lease.value.worker, db.session, db.lease.value.lease)
    ensures Slots(slots, dbs[d := db], tasks)
  {
    var nd := dbs[d := db];
    forall e ensures BindingAt(slots, nd, e) { assert BindingAt(slots, dbs, e); }
  }

  /** Changes nobody relies on: dying, losing the transport, leaving Idle, being built. */
  lemma SlotsHarmless(slots: map<Wid, Slot>, dbs: map<DbId, Database>, tasks: map<Tid, Task>, w: Wid, slot: Slot)
    requires Slots(slots, dbs, tasks)
    requires w in slots ==> slot.state == Dead || slots[w].state == Idle || slot == slots[w].(transport := slot.transport)
    ensures Slots(slots[w := slot], dbs, tasks)
  {
    var ns := slots[w := slot];
    forall u ensures SlotAt(ns, tasks, u) { assert SlotAt(slots, tasks, u); }
    forall d ensures BindingAt(ns, dbs, d) { assert BindingAt(slots, dbs, d); }
  }

  /** The holder of a call lock may rewrite path and snapshot. */
  lemma SlotsRewrite(slots: map<Wid, Slot>, dbs: map<DbId, Database>, tasks: map<Tid, Task>, w: Wid, slot: Slot, t: Tid)
    requires Slots(slots, dbs, tasks) && UniqueLocks(tasks)
    requires w in slots && slot.state == slots[w].state && t in tasks && tasks[t].HoldsCall(w)
    ensures Slots(slots[w := slot], dbs, tasks - {t})
  {
    var ns := slots[w := slot];
    forall u ensures SlotAt(ns, tasks - {t}, u) {
      assert SlotAt(slots, tasks, u) && LocksApart(tasks, t, u);
    }
    forall d ensures BindingAt(ns, dbs, d) { assert BindingAt(slots, dbs, d); }
  }

  /** The holder of lease `l` may change the slot leased under `l` when no other call runs on it. */
  lemma SlotsByHolder(slots: map<Wid, Slot>, dbs: map<DbId, Database>, tasks: map<Tid, Task>, w: Wid, slot: Slot, t: Tid, l: Lid)
    requires Slots(slots, dbs, tasks) && UniqueHolders(dbs, tasks)
    requires w in slots && slots[w].state.BelongsTo(l) && TaskHolds(tasks, t, l)
    requires CallFree(tasks - {t}, w)
    ensures Slots(slots[w := slot], dbs, tasks - {t})
  {
    var ns := slots[w := slot];
    HolderAlone(dbs, tasks, t, l);
    forall u ensures SlotAt(ns, tasks - {t}, u) {
      assert SlotAt(slots, tasks, u) && (u != t ==> !TaskHolds(tasks, u, l));
      assert u in tasks && u != t ==> u in tasks - {t};
    }
    forall d ensures BindingAt(ns, dbs, d) {
      assert BindingAt(slots, dbs, d) && !DbHolds(dbs, d, l);
    }
  }

  // ---- The pool's lists ----

  lemma WorkersSlot(children: set<Wid>, reserved: map<Wid, Reservation>, nextWid: nat, slots: map<Wid, Slot>, w: Wid, slot: Slot)
    requires Workers(children, reserved, nextWid, slots)
    requires w in slots && (slots[w].state != Dead || slot.state == Dead)
    ensures Workers(children, reserved, nextWid, slots[w := slot])
  {
    var ns := slots[w := slot];
    forall x ensures WorkerAt(children, reserved, nextWid, ns, x) { assert WorkerAt(children, reserved, nextWid, slots, x); }
  }

  lemma LossesSlot(slots: map<Wid, Slot>, losses: Losses, w: Wid, slot: Slot)
    requires LossesOk(slots, losses)
    requires w in slots ==> (slots[w].state != Dead || slot == slots[w])
    requires slot.state != Dead || (w in slots && slot == slots[w])
    ensures LossesOk(slots[w := slot], losses)
  {
    var ns := slots[w := slot];
    forall x ensures LossAt(ns, losses, x) { assert LossAt(slots, losses, x); }
  }

  lemma ReservationsTasks(reserved: map<Wid, Reservation>, slots: map<Wid, Slot>, tasks: map<Tid, Task>, next: map<Tid, Task>, t: Tid)
    requires Reservations(reserved, slots, tasks)
    requires t in tasks ==> !Spawns(tasks[t])
    requires t in next ==> !Spawns(next[t])
    requires next - {t} == tasks - {t}
    ensures Reservations(reserved, slots, next)
  {
    forall u | u != t ensures (u in next <==> u in tasks) && (u in next ==> next[u] == tasks[u]) {
      assert u in next <==> u in next - {t};
      assert u in tasks <==> u in tasks - {t};
      if u in next { assert (next - {t})[u] == (tasks - {t})[u]; }
    }
    forall w ensures ReservationAt(reserved, slots, next, w) { assert ReservationAt(reserved, slots, tasks, w); }
    forall u ensures SpawnerAt(reserved, next, u) { assert SpawnerAt(reserved, tasks, u); }
  }

  lemma ReservationsSlot(reserved: map<Wid, Reservation>, slots: map<Wid, Slot>, tasks: map<Tid, Task>, w: Wid, slot: Slot)
    requires Reservations(reserved, slots, tasks)
    requires w in slots
    requires slot.state == Dead || slot.state == slots[w].state || (w in reserved ==> reserved[w].Abandoned?)
    ensures Reservations(reserved, slots[w := slot], tasks)
  {
    var ns := slots[w := slot];
    forall x ensures ReservationAt(reserved, ns, tasks, x) { assert ReservationAt(reserved, slots, tasks, x); }
  }

  lemma ReservationsAbandon(reserved: map<Wid, Reservation>, slots: map<Wid, Slot>, tasks: map<Tid, Task>, w: Wid, next: map<Tid, Task>)
    requires Reservations(reserved, slots, tasks) && w in reserved && !reserved[w].Abandoned?
    requires next == (match reserved[w].starter case Opener(t) => tasks - {t} case Replenisher => tasks)
    ensures Reservations(reserved[w := Abandoned], slots, next)
  {
    var nr := reserved[w := Abandoned];
    assert ReservationAt(reserved, slots, tasks, w);
    forall x ensures ReservationAt(nr, slots, next, x) { assert ReservationAt(reserved, slots, tasks, x); }
    forall u ensures SpawnerAt(nr, next, u) { assert SpawnerAt(reserved, tasks, u); }
  }

  lemma ReservationsAdd(reserved: map<Wid, Reservation>, slots: map<Wid, Slot>, tasks: map<Tid, Task>, w: Wid, starter: Starter, next: map<Tid, Task>)
    requires Reservations(reserved, slots, tasks) && w !in reserved && w !in slots
    requires match starter
             case Opener(t) => t in tasks && !Spawns(tasks[t]) && t in next && next[t].Acquires() && next[t].open.at == Spawning(w) && next == tasks[t := next[t]]
             case Replenisher => next == tasks
    ensures Reservations(reserved[w := StartingUp(starter)], slots, next)
  {
    var nr := reserved[w := StartingUp(starter)];
    forall x ensures ReservationAt(nr, slots, next, x) { assert ReservationAt(reserved, slots, tasks, x); }
    forall u ensures SpawnerAt(nr, next, u) { assert SpawnerAt(reserved, tasks, u); }
  }

  lemma ScansEnd(children: set<Wid>, slots: map<Wid, Slot>, tasks: map<Tid, Task>, t: Tid)
    requires ScansOk(children, slots, tasks)
    ensures ScansOk(children, slots, tasks - {t})
  {
    forall u ensures ScanAt(children, slots, tasks - {t}, u) { assert ScanAt(children, slots, tasks, u); }
  }

  lemma ScansSet(children: set<Wid>, slots: map<Wid, Slot>, tasks: map<Tid, Task>, t: Tid, k: Task)
    requires ScansOk(children, slots, tasks - {t}) && ScanOk(k, children, slots)
    ensures ScansOk(children, slots, tasks[t := k])
  {
    var nt := tasks[t := k];
    forall u ensures ScanAt(children, slots, nt, u) { assert ScanAt(children, slots, tasks - {t}, u); }
  }

  lemma ScansSlot(children: set<Wid>, slots: map<Wid, Slot>, tasks: map<Tid, Task>, w: Wid, slot: Slot)
    requires ScansOk(children, slots, tasks)
    requires w in slots ==> slots[w].state != Dead || slot.state == Dead
    ensures ScansOk(children, slots[w := slot], tasks)
  {
    var ns := slots[w := slot];
    forall u ensures ScanAt(children, ns, tasks, u) { assert ScanAt(children, slots, tasks, u); }
  }

  /** While nobody scans, the list of children may change freely. */
  lemma ScansIdle(children: set<Wid>, slots: map<Wid, Slot>, tasks: map<Tid, Task>)
    requires PoolFree(tasks)
    ensures ScansOk(children, slots, tasks)
  {
  }
}
