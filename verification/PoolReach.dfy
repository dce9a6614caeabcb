/** Reachable states of the pool machine, built up step by step. */
module PoolReach {
  import opened Wrappers
  import opened PoolState
  import opened PoolRun

  ghost predicate Reachable(s: State) {
    exists states, steps :: Run(states, steps) && states[|steps|] == s
  }

  lemma ReachInit(s: State)
    requires Init(s)
    ensures Reachable(s)
  {
    var steps: seq<Step> := [];
    assert Run([s], steps) && [s][|steps|] == s;
  }

  lemma ExtendAt(states: seq<State>, steps: seq<Step>, a: Step, s1: State, i: int)
    requires |states| == |steps| + 1 && NextAt(states, steps, i) && Next(states[|steps|], a, s1)
    ensures NextAt(states + [s1], steps + [a], i)
  {
    var states1, steps1 := states + [s1], steps + [a];
    if 0 <= i < |steps| {
      assert states1[i] == states[i] && states1[i + 1] == states[i + 1] && steps1[i] == steps[i];
    }
  }

  lemma ReachNext(s: State, a: Step, s1: State)
    requires Reachable(s) && Next(s, a, s1)
    ensures Reachable(s1)
  {
    var states, steps :| Run(states, steps) && states[|steps|] == s;
    forall i ensures NextAt(states + [s1], steps + [a], i) {
      assert NextAt(states, steps, i);
      ExtendAt(states, steps, a, s1, i);
    }
    assert Run(states + [s1], steps + [a]) && (states + [s1])[|steps + [a]|] == s1;
  }

  lemma ReachStep(s: State, a: Step)
    requires Reachable(s) && Enabled(s, a)
    ensures Reachable(Apply(s, a))
  {
    ReachNext(s, a, Apply(s, a));
  }

  lemma ReachOpen(s: State, a: OpenStep, s1: State)
    requires Reachable(s) && OpenStepEnabled(s, a) && s1 == OpenStepApply(s, a)
    ensures Reachable(s1)
  {
    ReachStep(s, Step.Open(a));
  }

  lemma ReachAcquire(s: State, a: AcquireStep, s1: State)
    requires Reachable(s) && AcquireStepEnabled(s, a) && s1 == AcquireStepApply(s, a)
    ensures Reachable(s1)
  {
    ReachStep(s, Acquire(a));
  }

  lemma ReachCall(s: State, a: CallStep, s1: State)
    requires Reachable(s) && CallStepEnabled(s, a) && s1 == CallStepApply(s, a)
    ensures Reachable(s1)
  {
    ReachStep(s, Step.Call(a));
  }

  lemma ReachUpkeep(s: State, a: UpkeepStep, s1: State)
    requires Reachable(s) && UpkeepStepEnabled(s, a) && s1 == UpkeepStepApply(s, a)
    ensures Reachable(s1)
  {
    ReachStep(s, Upkeep(a));
  }

  // ---- A fresh opener, up to its scan ----

  /** The opener `t` can create database `d` and start to scan at once. */
  ghost predicate Calm(s: State, t: Tid, d: DbId) {
    && d !in s.dbs && t !in s.tasks && DbFree(s.tasks, d) && PoolFree(s.tasks)
    && s.pool.nextLid < s.cfg.maxLid && 0 < s.cfg.maxGen && !s.pool.shuttingDown
  }

  function Beginning(s: State, t: Tid, d: DbId, session: Session): State {
    s.(dbs := s.dbs[d := Database(session, 0, None)], tasks := s.tasks[t := Opening(d, session, NeedLease)])
  }

  function Acquirer(s: State, t: Tid, d: DbId, session: Session, at: AcquireStage): State {
    s.(dbs := s.dbs[d := Database(session, 1, None)],
       pool := s.pool.(nextLid := s.pool.nextLid + 1),
       tasks := s.tasks[t := Opening(d, session, Acquiring(1, s.pool.nextLid + 1, at))])
  }

  function StartOfScan(s: State): AcquireStage {
    Scanning(s.pool.notifications, s.losses.deaths, |s.pool.reserved|, {}, {})
  }

  lemma ReachBeginning(s: State, t: Tid, d: DbId, session: Session)
    requires Reachable(s) && Calm(s, t, d)
    ensures Reachable(Beginning(s, t, d, session))
  {
    var s1 := NewDatabase(s, d, session);
    ReachOpen(s, DoNewDatabase(d, session), s1);
    ReachOpen(s1, DoOpenFresh(t, d), Beginning(s, t, d, session));
  }

  lemma DrawFromBeginning(s: State, t: Tid, d: DbId, session: Session)
    requires Calm(s, t, d)
    ensures CanDraw(Beginning(s, t, d, session), t)
    ensures Draw(Beginning(s, t, d, session), t) == Acquirer(s, t, d, session, Ready)
  {
    var s1 := Draw(Beginning(s, t, d, session), t);
    assert s1.dbs == Acquirer(s, t, d, session, Ready).dbs && s1.tasks == Acquirer(s, t, d, session, Ready).tasks;
  }

  lemma ReachAcquirer(s: State, t: Tid, d: DbId, session: Session)
    requires Reachable(s) && Calm(s, t, d)
    ensures Reachable(Acquirer(s, t, d, session, Ready))
  {
    ReachBeginning(s, t, d, session);
    DrawFromBeginning(s, t, d, session);
    ReachOpen(Beginning(s, t, d, session), DoDraw(t), Acquirer(s, t, d, session, Ready));
  }

  lemma ReachRegistered(s: State, t: Tid, d: DbId, session: Session)
    requires Reachable(s) && Calm(s, t, d)
    ensures Reachable(Acquirer(s, t, d, session, Registered(s.pool.notifications, s.losses.deaths)))
  {
    ReachAcquirer(s, t, d, session);
    ReachAcquire(Acquirer(s, t, d, session, Ready), DoRegister(t),
                 Acquirer(s, t, d, session, Registered(s.pool.notifications, s.losses.deaths)));
  }

  lemma ReachScan(s: State, t: Tid, d: DbId, session: Session)
    requires Reachable(s) && Calm(s, t, d)
    ensures Reachable(Acquirer(s, t, d, session, StartOfScan(s)))
  {
    ReachRegistered(s, t, d, session);
    ReachAcquire(Acquirer(s, t, d, session, Registered(s.pool.notifications, s.losses.deaths)), DoScanStart(t),
                 Acquirer(s, t, d, session, StartOfScan(s)));
  }
}
