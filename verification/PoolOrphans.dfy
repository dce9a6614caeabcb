/** No orphan over whole runs: exactly the runs that drop a reopening between
    taking a stale lease and retiring it strand a slot. */
module PoolOrphans {
  import opened Wrappers
  import opened PoolState
  import opened PoolInvariant
  import opened PoolRun
  import opened PoolOwnership
  import opened PoolReach

  /** The careless drop leaves a leased slot that nobody owns. */
  lemma CarelessStrands(s: State, t: Tid)
    requires Inv(s) && Owning(s) && CanDrop(s, t) && Careless(s, Upkeep(DoDrop(t)))
    ensures Belongs(Drop(s, t), s.tasks[t].open.w, s.tasks[t].open.l)
    ensures !Owned(Drop(s, t), s.tasks[t].open.w, s.tasks[t].open.l)
  {
    var w, l := s.tasks[t].open.w, s.tasks[t].open.l;
    var s1 := Drop(s, t);
    assert TaskHolds(s.tasks, t, l);
    assert ClaimAt(s.tasks, s.installs, s.pool.nextLid, t) && SettledAt(s, l);
    forall o ensures !Owns(s1, o, w, l) {
      match o
      case OfDatabase(d) => assert DbTaskApart(s.dbs, s.tasks, d, t); assert Owns(s1, o, w, l) ==> DbHolds(s.dbs, d, l);
      case OfTask(u) => assert TasksApart(s.tasks, t, u); assert Owns(s1, o, w, l) ==> TaskHolds(s.tasks, u, l);
      case OfGuard =>
      case OfReservation =>
    }
  }

  /** Exactly the careless drop breaks ownership. */
  lemma StepStrandsIff(s: State, a: Step)
    requires Inv(s) && Owning(s) && Enabled(s, a)
    ensures NoOrphan(Apply(s, a)) <==> !Careless(s, a)
    ensures !Careless(s, a) ==> Owning(Apply(s, a))
  {
    if Careless(s, a) {
      CarelessStrands(s, a.upkeep.t);
      assert Belongs(Apply(s, a), s.tasks[a.upkeep.t].open.w, s.tasks[a.upkeep.t].open.l);
    } else {
      StepOwning(s, a);
    }
  }

  ghost predicate CarelessAt(states: seq<State>, steps: seq<Step>, i: int) {
    0 <= i < |steps| && i < |states| && Careless(states[i], steps[i])
  }

  lemma RunStepStrandsIff(states: seq<State>, steps: seq<Step>, i: nat)
    requires Run(states, steps) && i < |steps| && Owning(states[i])
    ensures NoOrphan(states[i + 1]) <==> !CarelessAt(states, steps, i)
    ensures !CarelessAt(states, steps, i) ==> Owning(states[i + 1])
  {
    RunKeeps(states, steps, i);
    assert NextAt(states, steps, i);
    StepStrandsIff(states[i], steps[i]);
  }

  /** Up to its first careless drop a run keeps every slot owned. */
  lemma {:induction false} RunOwning(states: seq<State>, steps: seq<Step>, i: nat)
    requires Run(states, steps) && i < |states|
    requires forall k | 0 <= k < i :: !CarelessAt(states, steps, k)
    ensures Owning(states[i])
  {
    if i > 0 {
      RunOwning(states, steps, i - 1);
      RunStepStrandsIff(states, steps, i - 1);
    }
  }

  /** No orphan: in every run, all leased and closing slots have an owner in every
      state if and only if no reopening is dropped between its take and its retirement. */
  lemma NoOrphanIff(states: seq<State>, steps: seq<Step>)
    requires Run(states, steps)
    ensures (forall i | 0 <= i < |states| :: NoOrphan(states[i])) <==> (forall i | 0 <= i < |steps| :: !CarelessAt(states, steps, i))
  {
    if forall i | 0 <= i < |steps| :: !CarelessAt(states, steps, i) {
      forall i | 0 <= i < |states| ensures NoOrphan(states[i]) { RunOwning(states, steps, i); }
    } else {
      var i := FirstCareless(states, steps, 0);
      RunOwning(states, steps, i);
      RunStepStrandsIff(states, steps, i);
      assert !NoOrphan(states[i + 1]);
    }
  }

  lemma {:induction false} FirstCareless(states: seq<State>, steps: seq<Step>, from: nat) returns (i: nat)
    requires |states| == |steps| + 1 && from <= |steps|
    requires exists k :: from <= k < |steps| && CarelessAt(states, steps, k)
    requires forall k | 0 <= k < from :: !CarelessAt(states, steps, k)
    ensures i < |steps| && CarelessAt(states, steps, i)
    ensures forall k | 0 <= k < i :: !CarelessAt(states, steps, k)
    decreases |steps| - from
  {
    if CarelessAt(states, steps, from) {
      i := from;
    } else {
      i := FirstCareless(states, steps, from + 1);
    }
  }

  // ---- A run that strands a slot ----

  const KIND := CallKind.Open(true, "a.i64", None)

  function Fresh(): State {
    State(Config(1, 1, 10, 10, 10),
          PoolInner({0}, map[], 1, 0, false, Serving, 0, false),
          map[0 := Slot(Idle, true, None, None)], Losses(0, map[], {}, {}), map[], map[], map[])
  }

  function Acquired(at: AcquireStage): State {
    Fresh().(pool := Fresh().pool.(nextLid := 1),
             dbs := map[7 := Database("s", 1, None)],
             tasks := map[3 := Opening(7, "s", Acquiring(1, 1, at))])
  }

  function Leasing(transport: bool, tasks: map<Tid, Task>): State {
    Acquired(Ready).(slots := map[0 := Slot(Leased("s", 1), transport, None, None)],
                     dbs := map[7 := Database("s", 1, Some(Lease(0, 1, 1, false)))],
                     installs := map[1 := Install(7, 1, 0)],
                     tasks := tasks)
  }

  function Taken(): State {
    Leasing(false, map[4 := Opening(7, "s", StaleTaken(0, 1))]).(dbs := map[7 := Database("s", 1, None)])
  }

  function Stranded(): State {
    Leasing(false, map[]).(dbs := map[7 := Database("s", 1, None)])
  }

  lemma ReachScanning()
    ensures Reachable(Acquired(Scanning(0, 0, 0, {}, {})))
  {
    ReachInit(Fresh());
    ReachScan(Fresh(), 3, 7, "s");
    assert Acquirer(Fresh(), 3, 7, "s", StartOfScan(Fresh())) == Acquired(Scanning(0, 0, 0, {}, {}));
  }

  lemma LeaseIdle()
    ensures var s := Acquired(Scanning(0, 0, 0, {}, {}));
            && CanVisitIdle(s, 3, 0, KIND)
            && VisitIdle(s, 3, 0, KIND) == Leasing(true, map[3 := Calling(PoolState.Call(7, "s", 0, 1, 1, KIND), Queued)])
  {
    var s1 := VisitIdle(Acquired(Scanning(0, 0, 0, {}, {})), 3, 0, KIND);
    assert s1.dbs == Leasing(true, map[]).dbs && s1.slots == Leasing(true, map[]).slots;
  }

  lemma ReachQueued()
    ensures Reachable(Leasing(true, map[3 := Calling(PoolState.Call(7, "s", 0, 1, 1, KIND), Queued)]))
  {
    LeaseIdle();
    ReachScanning();
    ReachAcquire(Acquired(Scanning(0, 0, 0, {}, {})), DoVisitIdle(3, 0, KIND),
                 Leasing(true, map[3 := Calling(PoolState.Call(7, "s", 0, 1, 1, KIND), Queued)]));
  }

  lemma ReachLeased()
    ensures Reachable(Leasing(true, map[]))
  {
    ReachQueued();
    ReachCall(Leasing(true, map[3 := Calling(PoolState.Call(7, "s", 0, 1, 1, KIND), Queued)]), DoNeverDispatch(3),
              Leasing(true, map[]));
  }

  lemma ReachLost()
    ensures Reachable(Leasing(false, map[]))
  {
    ReachLeased();
    ReachUpkeep(Leasing(true, map[]), DoLoseTransport(0), Leasing(false, map[]));
  }

  lemma ReachStale()
    ensures Reachable(Leasing(false, map[4 := Opening(7, "s", StaleWait)]))
  {
    ReachLost();
    ReachOpen(Leasing(false, map[]), DoOpenStale(4, 7), Leasing(false, map[4 := Opening(7, "s", StaleWait)]));
  }

  lemma ReachTaken()
    ensures Reachable(Taken())
  {
    ReachStale();
    ReachOpen(Leasing(false, map[4 := Opening(7, "s", StaleWait)]), DoStaleTake(4), Taken());
  }

  /** A reachable state whose leased slot nobody will give back: the drop between
      the take of a stale lease and its retirement. */
  lemma StrandingReachable()
    ensures Reachable(Stranded()) && !NoOrphan(Stranded())
  {
    ReachTaken();
    ReachUpkeep(Taken(), DoDrop(4), Stranded());
    assert Belongs(Stranded(), 0, 1);
    forall o ensures !Owns(Stranded(), o, 0, 1) { }
  }
}
