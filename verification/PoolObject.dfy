/** The pool object itself: the critical sections of `WorkerPool`, each of them
    the code that runs while the pool mutex is held, over child slots that are
    updated in place. The ghost field `inner` is the pool part of the step
    machine's state; every section moves it by the machine's own function. */
module PoolObject {
  import opened Wrappers
  import opened PoolState
  import PoolRun

  class ChildSlot {
    const id: Wid
    var state: ChildState
    var transport: bool
    var path: Option<Path>
    var artifacts: Option<Artifacts>

    constructor (id: Wid, state: ChildState)
      ensures this.id == id && View() == Slot(state, true, None, None)
    {
      this.id := id;
      this.state := state;
      transport := true;
      path := None;
      artifacts := None;
    }

    ghost function View(): Slot
      reads this
    {
      Slot(state, transport, path, artifacts)
    }

    /** `take_dead_worker_locked`. */
    method TakeDeadWorker() returns (dead: DeadWorker)
      modifies this
      ensures View() == Slot(Dead, false, None, None)
      ensures dead == DeadWorker(old(path), old(artifacts))
    {
      state := Dead;
      dead := DeadWorker(path, artifacts);
      path := None;
      artifacts := None;
      transport := false;
    }

    /** The child section of `mark_dead_for_lease`: a stale lease kills nothing. */
    method TakeDeadForLease(lease: Lid) returns (dead: Option<DeadWorker>)
      modifies this
      ensures dead.Some? <==> old(state).BelongsTo(lease)
      ensures dead.Some? ==> View() == Slot(Dead, false, None, None) && dead.value == DeadWorker(old(path), old(artifacts))
      ensures dead.None? ==> View() == old(View())
    {
      if !state.BelongsTo(lease) {
        return None;
      }
      var worker := TakeDeadWorker();
      dead := Some(worker);
    }

    /** First child section of `release_inner`. */
    method BeginClose(lease: Lid) returns (ok: bool)
      modifies this
      ensures ok <==> old(state).BelongsTo(lease)
      ensures View() == if ok then old(View()).(state := ChildState.Closing(lease)) else old(View())
    {
      ok := state.BelongsTo(lease);
      if ok {
        state := ChildState.Closing(lease);
      }
    }

    /** Last child section of `release_inner`, which does not look at the lease again. */
    method FinishClose() returns (idle: bool)
      modifies this
      ensures idle <==> old(state) != Dead
      ensures View() == if idle then Slot(Idle, old(transport), None, None) else old(View())
    {
      if state == Dead {
        return false;
      }
      state := Idle;
      path := None;
      artifacts := None;
      idle := true;
    }
  }

  // ---- Lists of slots ----

  function Ids(cs: seq<ChildSlot>): set<Wid> {
    set c | c in cs :: c.id
  }

  ghost function States(cs: seq<ChildSlot>): (r: seq<ChildState>)
    reads cs
    ensures |r| == |cs| && forall i :: 0 <= i < |cs| ==> r[i] == cs[i].state
  {
    seq(|cs|, i requires 0 <= i < |cs| reads cs => cs[i].state)
  }

  /** `retain` of the slots whose id is not in `gone`. */
  function Without(cs: seq<ChildSlot>, gone: set<Wid>): seq<ChildSlot> {
    if cs == [] then []
    else if cs[0].id in gone then Without(cs[1..], gone)
    else [cs[0]] + Without(cs[1..], gone)
  }

  predicate Distinct(cs: seq<ChildSlot>) {
    forall i, j :: 0 <= i < j < |cs| ==> cs[i].id != cs[j].id
  }

  lemma Uncons(cs: seq<ChildSlot>)
    requires cs != []
    ensures forall c :: c in cs <==> c == cs[0] || c in cs[1..]
    ensures Distinct(cs) ==> Distinct(cs[1..]) && cs[0].id !in Ids(cs[1..])
    ensures Ids(cs) == {cs[0].id} + Ids(cs[1..])
  {
    assert cs == [cs[0]] + cs[1..];
    assert forall i :: 0 <= i < |cs[1..]| ==> cs[1..][i] == cs[i + 1];
  }

  lemma {:induction false} WithoutKeeps(cs: seq<ChildSlot>, gone: set<Wid>)
    requires Distinct(cs)
    ensures Distinct(Without(cs, gone)) && Ids(Without(cs, gone)) == Ids(cs) - gone
    ensures forall i :: 0 <= i < |Without(cs, gone)| ==> Without(cs, gone)[i] in cs && Without(cs, gone)[i].id !in gone
    ensures forall c :: c in Without(cs, gone) <==> c in cs && c.id !in gone
  {
    if cs != [] {
      Uncons(cs);
      WithoutKeeps(cs[1..], gone);
      var rest := Without(cs[1..], gone);
      if cs[0].id !in gone {
        forall i | 0 <= i < |rest| ensures rest[i].id != cs[0].id {
          assert rest[i] in cs[1..] && rest[i].id in Ids(cs[1..]);
        }
        assert Without(cs, gone) == [cs[0]] + rest;
        assert Ids([cs[0]] + rest) == {cs[0].id} + Ids(rest);
      }
    }
  }

  /** What is kept keeps its order: a kept slot stands behind exactly those kept before it. */
  lemma {:induction false} WithoutInOrder(cs: seq<ChildSlot>, gone: set<Wid>, j: nat)
    requires j < |cs| && cs[j].id !in gone
    ensures |Without(cs[..j], gone)| < |Without(cs, gone)|
    ensures Without(cs, gone)[|Without(cs[..j], gone)|] == cs[j]
  {
    if j > 0 {
      WithoutInOrder(cs[1..], gone, j - 1);
      assert cs[..j][0] == cs[0] && cs[..j][1..] == cs[1..][..j - 1];
    }
  }

  lemma {:induction false} WithoutAbsent(cs: seq<ChildSlot>, gone: set<Wid>)
    requires forall i :: 0 <= i < |cs| ==> cs[i].id !in gone
    ensures Without(cs, gone) == cs
  {
    if cs != [] { WithoutAbsent(cs[1..], gone); }
  }

  lemma {:induction false} IdsSize(cs: seq<ChildSlot>)
    requires Distinct(cs)
    ensures |Ids(cs)| == |cs|
  {
    if cs != [] {
      Uncons(cs);
      IdsSize(cs[1..]);
    }
  }

  /** Distinct ids name distinct slots. */
  lemma SameIdSameSlot(cs: seq<ChildSlot>)
    requires Distinct(cs)
    ensures forall c, e :: c in cs && e in cs && c.id == e.id ==> c == e
  {
  }

  /** The ids of the first `n` slots that are dead. */
  ghost function DeadIds(cs: seq<ChildSlot>, states: seq<ChildState>, n: nat): set<Wid>
    requires n <= |cs| == |states|
  {
    if n == 0 then {} else DeadIds(cs, states, n - 1) + if states[n - 1].Dead? then {cs[n - 1].id} else {}
  }

  lemma {:induction false} DeadIdsFrom(cs: seq<ChildSlot>, states: seq<ChildState>, n: nat, w: Wid)
    requires n <= |cs| == |states|
    ensures w in DeadIds(cs, states, n) <==> exists j :: 0 <= j < n && cs[j].id == w && states[j].Dead?
  {
    if n > 0 { DeadIdsFrom(cs, states, n - 1, w); }
  }

  lemma DeadIdsTell(cs: seq<ChildSlot>, states: seq<ChildState>)
    requires Distinct(cs) && |cs| == |states|
    ensures forall j :: 0 <= j < |cs| ==> (cs[j].id in DeadIds(cs, states, |cs|) <==> states[j].Dead?)
  {
    forall j | 0 <= j < |cs| ensures cs[j].id in DeadIds(cs, states, |cs|) <==> states[j].Dead? {
      DeadIdsFrom(cs, states, |cs|, cs[j].id);
    }
  }

  /** The number of states that are not dead. */
  function LiveCount(states: seq<ChildState>): nat {
    if states == [] then 0
    else LiveCount(states[..|states| - 1]) + if states[|states| - 1].Dead? then 0 else 1
  }

  /** The count of the code is the count of the machine. */
  lemma {:induction false} LiveCountIsLive(cs: seq<ChildSlot>, states: seq<ChildState>, slots: map<Wid, Slot>)
    requires Distinct(cs) && |states| == |cs|
    requires forall i :: 0 <= i < |cs| ==> cs[i].id in slots && slots[cs[i].id].state == states[i]
    ensures LiveCount(states) == |LiveIn(slots, Ids(cs))|
  {
    if cs != [] {
      var n := |cs| - 1;
      LiveCountIsLive(cs[..n], states[..n], slots);
      assert forall c :: c in cs <==> c == cs[n] || c in cs[..n];
      if states[n].Dead? {
        assert LiveIn(slots, Ids(cs)) == LiveIn(slots, Ids(cs[..n]));
      } else {
        assert LiveIn(slots, Ids(cs)) == LiveIn(slots, Ids(cs[..n])) + {cs[n].id};
        forall c | c in cs[..n] ensures c.id != cs[n].id { }
      }
    } else {
      assert LiveIn(slots, Ids(cs)) == {};
    }
  }

  /** Position `k` holds the first idle slot. */
  ghost predicate FirstIdle(cs: seq<ChildSlot>, k: nat)
    reads cs
  {
    k < |cs| && cs[k].state.Idle? && forall i :: 0 <= i < k ==> !cs[i].state.Idle?
  }

  /** No slot is idle, and `dead` are the ids of the dead ones. */
  ghost predicate NoneIdle(cs: seq<ChildSlot>, dead: set<Wid>)
    reads cs
  {
    forall c :: c in cs ==> !c.state.Idle? && (c.state.Dead? <==> c.id in dead)
  }

  lemma ScanEnds(cs: seq<ChildSlot>, states: seq<ChildState>, dead: set<Wid>)
    requires Distinct(cs) && states == States(cs) && dead == DeadIds(cs, states, |cs|)
    requires forall j :: 0 <= j < |states| ==> !states[j].Idle?
    ensures states[..|cs|] == states && NoneIdle(cs, dead)
  {
    DeadIdsTell(cs, states);
    forall c | c in cs ensures !c.state.Idle? && (c.state.Dead? <==> c.id in dead) {
      var j :| 0 <= j < |cs| && cs[j] == c;
      assert states[j] == c.state;
    }
  }

  lemma ScanOne(cs: seq<ChildSlot>, states: seq<ChildState>, i: nat)
    requires i < |cs| == |states|
    ensures LiveCount(states[..i + 1]) == LiveCount(states[..i]) + if states[i].Dead? then 0 else 1
    ensures DeadIds(cs, states, i + 1) == DeadIds(cs, states, i) + if states[i].Dead? then {cs[i].id} else {}
  {
    assert states[..i + 1][..i] == states[..i];
  }

  /** The scan: the first idle slot, or the exact count of startups and live slots
      together with the ids of exactly the dead ones. */
  method ScanList(cs: seq<ChildSlot>, startups: nat) returns (idle: Option<nat>, active: nat, dead: set<Wid>)
    requires Distinct(cs)
    ensures idle.Some? ==> FirstIdle(cs, idle.value)
    ensures idle.None? ==> NoneIdle(cs, dead) && active == startups + LiveCount(States(cs))
  {
    ghost var states := States(cs);
    active, dead := startups, {};
    var i := 0;
    while i < |cs|
      invariant 0 <= i <= |cs| && active == startups + LiveCount(states[..i])
      invariant forall j :: 0 <= j < i ==> !states[j].Idle?
      invariant dead == DeadIds(cs, states, i)
    {
      ScanOne(cs, states, i);
      var slot := cs[i];
      if slot.state == Dead {
        dead := dead + {slot.id};
      } else {
        active := active + 1;
        if slot.state == Idle {
          return Some(i), active, dead;
        }
      }
      i := i + 1;
    }
    ScanEnds(cs, states, dead);
    return None, active, dead;
  }

  datatype Scan =
    | LeasedIdle(k: nat)     // the child at position k was leased
    | MustWait               // full, but a startup is outstanding
    | Exhausted(active: nat)
    | MaySpawn

  class WorkerPool {
    const cfg: Config
    var children: seq<ChildSlot>
    var spawning: set<Wid>
    var nextId: nat
    var nextLeaseId: nat
    var shuttingDown: bool
    ghost var inner: PoolInner

    ghost predicate Valid()
      reads this
    {
      && Distinct(children)
      && (forall c :: c in children ==> c.id < nextId && c.id !in spawning)
      && (forall w :: w in spawning ==> w < nextId)
      && nextId <= cfg.maxWid
      && inner.children == Ids(children) && inner.reserved.Keys == spawning && inner.nextWid == nextId
      && inner.nextLid == nextLeaseId && inner.shuttingDown == shuttingDown
    }

    constructor (cfg: Config)
      ensures Valid() && this.cfg == cfg && children == [] && spawning == {} && !shuttingDown
      ensures inner == PoolInner({}, map[], 0, 0, false, Serving, 0, false)
    {
      this.cfg := cfg;
      children := [];
      spawning := {};
      nextId := 0;
      nextLeaseId := 0;
      shuttingDown := false;
      inner := PoolInner({}, map[], 0, 0, false, Serving, 0, false);
    }

    /** `reserve_spawn_slot_locked`. */
    method Reserve(starter: Starter) returns (id: Option<Wid>)
      requires Valid()
      modifies this`spawning, this`nextId, this`inner
      ensures Valid()
      ensures id == if shuttingDown || old(nextId) >= cfg.maxWid then None else Some(old(nextId))
      ensures id.None? ==> inner == old(inner)
      ensures id.Some? ==> id.value !in old(spawning) && spawning == old(spawning) + {id.value}
      ensures id.Some? ==> inner == old(inner).(reserved := old(inner).reserved[id.value := StartingUp(starter)], nextWid := id.value + 1)
    {
      if shuttingDown || nextId >= cfg.maxWid {
        return None;
      }
      var w := nextId;
      nextId := w + 1;
      spawning := spawning + {w};
      inner := inner.(reserved := inner.reserved[w := StartingUp(starter)], nextWid := w + 1);
      id := Some(w);
    }

    /** The reservation loop of `schedule_replenishment`: exactly the machine's refill. */
    method ScheduleReplenishment() returns (scheduled: seq<Wid>)
      requires Valid()
      modifies this`spawning, this`nextId, this`inner
      ensures Valid() && inner == Refill(cfg, old(inner))
      ensures |scheduled| == nextId - old(nextId) && forall i :: 0 <= i < |scheduled| ==> scheduled[i] == old(nextId) + i
      ensures || shuttingDown || nextId >= cfg.maxWid
              || |spawning| + |children| >= cfg.minWorkers || |spawning| + |children| >= cfg.maxWorkers
    {
      scheduled := [];
      IdsSize(children);
      while !shuttingDown && |spawning| + |children| < cfg.Floor()
        invariant Valid() && Refill(cfg, inner) == Refill(cfg, old(inner))
        invariant old(nextId) + |scheduled| == nextId
        invariant forall i :: 0 <= i < |scheduled| ==> scheduled[i] == old(nextId) + i
        decreases cfg.maxWid - nextId
      {
        assert |inner.reserved| == |inner.reserved.Keys|;
        var id := Reserve(Replenisher);
        if id.None? {
          return;
        }
        scheduled := scheduled + [id.value];
      }
      assert |inner.reserved| == |inner.reserved.Keys|;
    }

    /** `forget_slot`. */
    method Forget(w: Wid)
      requires Valid()
      modifies this`children, this`inner
      ensures Valid() && children == Without(old(children), {w})
      ensures inner == Notify(old(inner)).(children := old(inner).children - {w})
    {
      WithoutKeeps(children, {w});
      children := Without(children, {w});
      inner := Notify(inner).(children := inner.children - {w});
    }

    /** `finish_spawn_reservation`: a startup becomes a child or just ends. While
        shutting down a started worker is killed instead, its slot forgotten, and the
        reservation dropped; waiters are notified in any case. */
    method FinishSpawn(w: Wid, slot: Option<ChildSlot>) returns (installed: bool)
      requires Valid() && w in spawning && (slot.Some? ==> slot.value.id == w && slot.value !in children)
      modifies this`children, this`spawning, this`inner, if slot.Some? then {slot.value} else {}
      ensures Valid() && installed == !shuttingDown && spawning == old(spawning) - {w}
      ensures children == if installed && slot.Some? then old(children) + [slot.value] else old(children)
      ensures installed && slot.Some? ==> slot.value.View() == old(slot.value.View())
      ensures !installed && slot.Some? ==> slot.value.state == Dead
      ensures inner == old(inner).(reserved := old(inner).reserved - {w},
                children := if installed && slot.Some? then old(inner).children + {w} else old(inner).children,
                notifications := old(inner).notifications + if !installed && slot.Some? then 2 else 1)
    {
      installed := !shuttingDown;
      match slot {
        case Some(s) =>
          if installed {
            children := children + [s];
            inner := inner.(children := inner.children + {w});
          } else {
            DiscardUninstalled(s);
          }
        case None =>
      }
      spawning := spawning - {w};
      inner := Notify(inner).(reserved := inner.reserved - {w});
    }

    /** `discard_uninstalled_slot`. */
    method DiscardUninstalled(slot: ChildSlot)
      requires Valid() && slot.id in spawning && slot !in children
      modifies this`children, this`inner, slot
      ensures Valid() && slot.state == Dead && children == old(children) && inner == Notify(old(inner))
    {
      if slot.state != Dead {
        var _ := slot.TakeDeadWorker();
      }
      WithoutAbsent(children, {slot.id});
      Forget(slot.id);
      assert old(inner).children - {slot.id} == old(inner).children;
    }

    /** `begin_shutdown`. */
    method BeginShutdown()
      requires Valid()
      modifies this`shuttingDown, this`inner
      ensures Valid() && inner == old(inner).(shuttingDown := true)
    {
      shuttingDown := true;
      inner := inner.(shuttingDown := true);
    }

    /** The counting loop of the idle reaper. */
    method LiveOrReserved() returns (n: nat)
      requires Valid()
      ensures n == |spawning| + LiveCount(States(children))
    {
      n := |spawning|;
      var i := 0;
      ghost var states := States(children);
      while i < |children|
        invariant 0 <= i <= |children| && n == |spawning| + LiveCount(states[..i])
      {
        assert states[..i + 1][..i] == states[..i];
        if children[i].state != Dead {
          n := n + 1;
        }
        i := i + 1;
      }
      assert states[..i] == states;
    }

    /** `take_stale_idle_worker_if_above_min`; `used` says the slot was used since the timer started. */
    method TakeStaleIdle(slot: ChildSlot, used: bool) returns (dead: Option<DeadWorker>)
      requires Valid()
      modifies slot
      ensures dead.Some? <==> |spawning| + LiveCount(old(States(children))) > cfg.minWorkers && old(slot.state).Idle? && !used
      ensures dead.Some? ==> slot.View() == Slot(Dead, false, None, None)
                             && dead.value == DeadWorker(old(slot.path), old(slot.artifacts))
      ensures dead.None? ==> slot.View() == old(slot.View())
    {
      var live := LiveOrReserved();
      if live <= cfg.minWorkers || slot.state != Idle || used {
        return None;
      }
      var d := slot.TakeDeadWorker();
      dead := Some(d);
    }

    /** The loop of `lease_inner` over the children. */
    method ScanChildren() returns (idle: Option<nat>, active: nat, dead: set<Wid>)
      requires Valid()
      ensures idle.Some? ==> FirstIdle(children, idle.value)
      ensures idle.None? ==> NoneIdle(children, dead) && active == |spawning| + LiveCount(States(children))
    {
      idle, active, dead := ScanList(children, |spawning|);
    }

    /** The pool section of `lease_inner`. The first idle child is leased and
        nothing is pruned; without one, dead children leave the list and the pool is
        full, exhausted or free to start a worker according to the exact count. */
    method LeaseScan(session: Session, lease: Lid) returns (r: Scan)
      requires Valid()
      modifies this`children, this`inner, children
      ensures Valid() && inner == old(inner).(children := inner.children)
      ensures r.LeasedIdle? ==>
                && children == old(children) && inner == old(inner)
                && r.k < |children| && old(children[r.k].state).Idle? && (forall i :: 0 <= i < r.k ==> !old(children[i].state).Idle?)
                && children[r.k].View() == old(children[r.k].View()).(state := Leased(session, lease))
                && (forall c :: c in children && c != children[r.k] ==> c.View() == old(c.View()))
      ensures !r.LeasedIdle? ==>
                && (forall c :: c in old(children) ==> !c.state.Idle? && c.View() == old(c.View()))
                && (forall c :: c in children <==> c in old(children) && c.state != Dead)
                && (r.MaySpawn? <==> |spawning| + LiveCount(old(States(children))) < cfg.maxWorkers)
                && (r.MustWait? ==> spawning != {})
                && (r.Exhausted? ==> spawning == {} && r.active == LiveCount(old(States(children))))
    {
      var idle, active, dead := ScanChildren();
      if idle.Some? {
        children[idle.value].state := Leased(session, lease);
        return LeasedIdle(idle.value);
      }
      Prune(dead);
      if active >= cfg.maxWorkers {
        if spawning == {} {
          return Exhausted(active);
        }
        return MustWait;
      }
      return MaySpawn;
    }

    /** Drop the given children from the list. */
    method Prune(dead: set<Wid>)
      requires Valid()
      modifies this`children, this`inner
      ensures Valid() && inner == old(inner).(children := old(inner).children - dead)
      ensures forall c :: c in children <==> c in old(children) && c.id !in dead
    {
      WithoutKeeps(children, dead);
      children := Without(children, dead);
      inner := inner.(children := Ids(children));
    }

    /** The machine state of a pool that no session has used yet. */
    ghost function FreshState(): PoolState.State
      requires Valid()
      reads this, children
    {
      SameIdSameSlot(children);
      PoolState.State(cfg, inner, map c | c in children :: c.id := c.View(), Losses(0, map[], {}, {}), map[], map[], map[])
    }

    /** One worker of `warm_min`. */
    method WarmOne(start: bool) returns (ok: bool)
      requires Valid() && inner == PoolInner(Ids(children), map[], |children|, 0, false, Serving, inner.notifications, false)
      modifies this`children, this`spawning, this`nextId, this`inner
      ensures Valid() && inner == PoolInner(Ids(children), map[], nextId, 0, false, Serving, inner.notifications, false)
      ensures ok <==> start && old(nextId) < cfg.maxWid
      ensures if ok then |children| == |old(children)| + 1 == nextId && children[..|old(children)|] == old(children)
                         && fresh(children[|old(children)|]) && children[|old(children)|].state.Idle?
              else children == old(children)
    {
      var id := Reserve(Replenisher);
      if id.None? {
        return false;
      }
      if start {
        var slot := new ChildSlot(id.value, Idle);
        ok := FinishSpawn(id.value, Some(slot));
      } else {
        var _ := FinishSpawn(id.value, None);
        ok := false;
      }
    }

    /** `warm_min` on a fresh pool; `starts` says which process starts succeed. It
        establishes the initial state of the machine, with the whole minimum idle
        exactly when every start succeeds and ids suffice. */
    method WarmMin(starts: seq<bool>) returns (ok: bool)
      requires Valid() && inner == PoolInner({}, map[], 0, 0, false, Serving, 0, false) && children == []
      requires |starts| >= cfg.minWorkers
      modifies this`children, this`spawning, this`nextId, this`inner
      ensures Valid() && PoolRun.Init(FreshState())
      ensures ok <==> && (cfg.minWorkers <= cfg.maxWid || cfg.maxWorkers <= cfg.maxWid)
                      && (forall i :: 0 <= i < cfg.minWorkers && i < cfg.maxWorkers ==> starts[i])
      ensures |children| <= cfg.minWorkers && |children| <= cfg.maxWorkers
      ensures ok ==> |children| == cfg.minWorkers || |children| == cfg.maxWorkers
    {
      var n := 0;
      ok := true;
      while n < cfg.Floor() && ok
        invariant 0 <= n <= cfg.Floor() && Valid() && |children| <= cfg.Floor()
        invariant ok ==> |children| == n == nextId && forall i :: 0 <= i < n ==> starts[i]
        invariant !ok ==> n < cfg.Floor() && (!starts[n] || cfg.maxWid <= n)
        invariant forall c :: c in children ==> c.state == Idle
        invariant inner == PoolInner(Ids(children), map[], nextId, 0, false, Serving, inner.notifications, false)
        decreases ok, cfg.Floor() - n
      {
        ok := WarmOne(starts[n]);
        if ok {
          n := n + 1;
        }
      }
      WarmedInit();
    }

    lemma WarmedInit()
      requires Valid() && |children| <= cfg.maxWorkers
      requires inner == PoolInner(Ids(children), map[], nextId, 0, false, Serving, inner.notifications, false)
      requires forall c :: c in children ==> c.state == Idle
      ensures PoolRun.Init(FreshState())
    {
      IdsSize(children);
      SameIdSameSlot(children);
    }
  }
}
