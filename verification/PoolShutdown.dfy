/** Shutdown, replenishment and worker ids of the pool. */
module PoolShutdown {
  import opened Wrappers
  import opened PoolState
  import opened PoolInvariant
  import opened PoolRun
  import opened PoolLifecycle

  /** What each phase of `shutdown_all` has established. */
  ghost predicate PhaseOk(p: PoolInner) {
    && (!p.shut.Serving? ==> p.shuttingDown && p.reserved == map[])
    && (p.shut.Draining? ==> p.children <= p.shut.left)
    && (p.shut.Drained? ==> p.children == {})
  }

  /** A pool that is shutting down only loses children and reservations. */
  ghost predicate Shrinks(p: PoolInner, q: PoolInner) {
    p.shuttingDown ==>
      && q.shuttingDown && q.children <= p.children && q.reserved.Keys <= p.reserved.Keys
      && (!p.shut.Serving? ==> !q.shut.Serving?) && (p.shut.Drained? ==> q.shut.Drained?)
  }

  /** New reservations take ids that were never given out, new children were reservations. */
  ghost predicate NewIds(p: PoolInner, q: PoolInner) {
    && p.nextWid <= q.nextWid
    && (forall w :: w in q.reserved && w !in p.reserved ==> p.nextWid <= w)
    && (forall w :: w in q.children && w !in p.children ==> w in p.reserved)
  }

  ghost predicate Winds(p: PoolInner, q: PoolInner) {
    Shrinks(p, q) && (PhaseOk(p) ==> PhaseOk(q)) && NewIds(p, q)
  }

  lemma OpenWinds(s: State, a: OpenStep)
    requires OpenStepEnabled(s, a)
    ensures Winds(s.pool, OpenStepApply(s, a).pool)
  {
  }

  lemma AcquireWinds(s: State, a: AcquireStep)
    requires AcquireStepEnabled(s, a)
    ensures Winds(s.pool, AcquireStepApply(s, a).pool)
  {
  }

  lemma StartupWinds(s: State, a: StartupStep)
    requires StartupStepEnabled(s, a)
    ensures Winds(s.pool, StartupStepApply(s, a).pool)
  {
  }

  lemma CallWinds(s: State, a: CallStep)
    requires CallStepEnabled(s, a)
    ensures Winds(s.pool, CallStepApply(s, a).pool)
  {
  }

  lemma ReleaseWinds(s: State, a: ReleaseStep)
    requires ReleaseStepEnabled(s, a)
    ensures Winds(s.pool, ReleaseStepApply(s, a).pool)
  {
  }

  lemma {:induction false} RefillNewIds(cfg: Config, p: PoolInner)
    ensures NewIds(p, Refill(cfg, p))
    decreases cfg.maxWid - p.nextWid
  {
    if !p.shuttingDown && |p.reserved| + |p.children| < cfg.Floor() && p.nextWid < cfg.maxWid {
      var q := p.(reserved := p.reserved[p.nextWid := StartingUp(Replenisher)], nextWid := p.nextWid + 1);
      RefillNewIds(cfg, q);
      RefillGrows(cfg, q);
    }
  }

  lemma ReplenishWinds(s: State)
    requires CanReplenish(s)
    ensures Winds(s.pool, Replenish(s).pool)
  {
    var p := s.pool.(replenishDue := false);
    RefillGrows(s.cfg, p);
    RefillNewIds(s.cfg, p);
    if p.shuttingDown { assert Refill(s.cfg, p) == p; }
  }

  lemma DropWinds(s: State, t: Tid)
    requires Inv(s) && CanDrop(s, t)
    ensures Winds(s.pool, Drop(s, t).pool)
  {
    assert SpawnerAt(s.pool.reserved, s.tasks, t);
  }

  lemma UpkeepWinds(s: State, a: UpkeepStep)
    requires Inv(s) && UpkeepStepEnabled(s, a)
    ensures Winds(s.pool, UpkeepStepApply(s, a).pool)
  {
    match a
    case DoReplenish => ReplenishWinds(s);
    case DoGuardRetire(w, l) =>
    case DoIdleReap(w) =>
    case DoForget(w) =>
    case DoForgetLost(w) =>
    case DoLoseTransport(w) =>
    case DoDrop(t) => DropWinds(s, t);
  }

  lemma ShutWinds(s: State, a: ShutStep)
    requires ShutStepEnabled(s, a)
    ensures Winds(s.pool, ShutStepApply(s, a).pool)
  {
  }

  lemma StepWinds(s: State, a: Step)
    requires Inv(s) && Enabled(s, a)
    ensures Winds(s.pool, Apply(s, a).pool)
  {
    match a
    case Open(b) => OpenWinds(s, b);
    case Acquire(b) => AcquireWinds(s, b);
    case Startup(b) => StartupWinds(s, b);
    case Call(b) => CallWinds(s, b);
    case Release(b) => ReleaseWinds(s, b);
    case Upkeep(b) => UpkeepWinds(s, b);
    case Shut(b) => ShutWinds(s, b);
  }

  lemma RunStepWinds(states: seq<State>, steps: seq<Step>, i: nat)
    requires Run(states, steps) && i < |steps|
    ensures Winds(states[i].pool, states[i + 1].pool)
  {
    RunKeeps(states, steps, i);
    assert NextAt(states, steps, i);
    StepWinds(states[i], steps[i]);
  }

  lemma {:induction false} RunPhases(states: seq<State>, steps: seq<Step>, i: nat)
    requires Run(states, steps) && i < |states|
    ensures PhaseOk(states[i].pool)
  {
    if i > 0 {
      RunPhases(states, steps, i - 1);
      RunStepWinds(states, steps, i - 1);
    }
  }

  lemma IdStep(states: seq<State>, steps: seq<Step>, i: nat, w: Wid)
    requires Run(states, steps) && i < |steps| && w < states[i].pool.nextWid && w !in states[i].pool.reserved
    ensures w < states[i + 1].pool.nextWid && w !in states[i + 1].pool.reserved
    ensures w in states[i + 1].slots <==> w in states[i].slots
  {
    RunStepWinds(states, steps, i);
    RunStepGrows(states, steps, i);
    assert SlotGrows(states[i], states[i + 1], w);
  }

  /** Worker ids are never reused: an id below the counter that names neither a
      startup nor a slot never names one again, and a slot is never started twice. */
  lemma {:induction false} WorkerIdsNeverReused(states: seq<State>, steps: seq<Step>, i: nat, j: nat, w: Wid)
    requires Run(states, steps) && i <= j < |states| && w < states[i].pool.nextWid && w !in states[i].pool.reserved
    ensures w < states[j].pool.nextWid && w !in states[j].pool.reserved
    ensures w in states[j].slots <==> w in states[i].slots
    decreases j
  {
    if i < j {
      WorkerIdsNeverReused(states, steps, i, j - 1, w);
      IdStep(states, steps, j - 1, w);
    }
  }

  /** Once the pool is shutting down nothing is ever added to it. */
  lemma {:induction false} NothingAdded(states: seq<State>, steps: seq<Step>, i: nat, j: nat)
    requires Run(states, steps) && i <= j < |states| && states[i].pool.shuttingDown
    ensures Shrinks(states[i].pool, states[j].pool)
    decreases j
  {
    if i < j {
      NothingAdded(states, steps, i, j - 1);
      RunStepWinds(states, steps, j - 1);
    }
  }

  /** After `shutdown_all` the pool is empty for the rest of the run: no child, no
      startup, every worker dead, and every binding left points to a dead worker. */
  lemma ShutdownIsFinal(states: seq<State>, steps: seq<Step>, i: nat, j: nat)
    requires Run(states, steps) && i <= j < |states| && states[i].pool.shut.Drained?
    ensures states[j].pool.children == {} && states[j].pool.reserved == map[]
    ensures forall w :: w in states[j].slots ==> states[j].slots[w].state == Dead
    ensures forall d :: d in states[j].dbs && states[j].dbs[d].lease.Some? ==>
              !Usable(states[j].slots, states[j].dbs[d].lease.value)
  {
    var s := states[j];
    RunPhases(states, steps, i);
    NothingAdded(states, steps, i, j);
    RunPhases(states, steps, j);
    RunKeeps(states, steps, j);
    forall w | w in s.slots ensures s.slots[w].state == Dead {
      assert WorkerAt(s.pool.children, s.pool.reserved, s.pool.nextWid, s.slots, w);
    }
  }

  /** Replenishment ends with the minimum reached unless the pool shuts down or
      worker ids run out, and it never reserves beyond that minimum. */
  lemma {:induction false} RefillReachesFloor(cfg: Config, p: PoolInner)
    requires forall w :: w in p.reserved ==> w < p.nextWid
    ensures var q := Refill(cfg, p);
            && (|| p.shuttingDown || q.nextWid >= cfg.maxWid
                || |q.reserved| + |q.children| >= cfg.minWorkers || |q.reserved| + |q.children| >= cfg.maxWorkers)
            && (q == p || (|q.reserved| + |q.children| <= cfg.minWorkers && |q.reserved| + |q.children| <= cfg.maxWorkers))
            && p.nextWid <= q.nextWid && |q.reserved| == |p.reserved| + (q.nextWid - p.nextWid)
            && (forall w :: w in p.reserved ==> w in q.reserved && q.reserved[w] == p.reserved[w])
            && (forall w :: w in q.reserved && w !in p.reserved ==> p.nextWid <= w < q.nextWid && q.reserved[w] == StartingUp(Replenisher))
    decreases cfg.maxWid - p.nextWid
  {
    if !p.shuttingDown && |p.reserved| + |p.children| < cfg.Floor() && p.nextWid < cfg.maxWid {
      var q := p.(reserved := p.reserved[p.nextWid := StartingUp(Replenisher)], nextWid := p.nextWid + 1);
      assert |q.reserved| == |p.reserved| + 1;
      RefillReachesFloor(cfg, q);
    }
  }

  /** Every replenishment of a run restores the minimum. */
  lemma ReplenishRestores(states: seq<State>, steps: seq<Step>, i: nat)
    requires Run(states, steps) && i < |steps| && steps[i] == Upkeep(DoReplenish)
    ensures var p, cfg := states[i + 1].pool, states[i].cfg;
            || p.shuttingDown || p.nextWid >= cfg.maxWid
            || |p.reserved| + |p.children| >= cfg.minWorkers || |p.reserved| + |p.children| >= cfg.maxWorkers
  {
    RunKeeps(states, steps, i);
    var s := states[i];
    assert NextAt(states, steps, i);
    forall w | w in s.pool.reserved ensures w < s.pool.nextWid {
      assert WorkerAt(s.pool.children, s.pool.reserved, s.pool.nextWid, s.slots, w);
    }
    RefillReachesFloor(s.cfg, s.pool.(replenishDue := false));
    RefillGrows(s.cfg, s.pool.(replenishDue := false));
  }
}
