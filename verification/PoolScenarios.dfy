/** Reachable states at which the code falls short of a simpler promise. */
module PoolScenarios {
  import opened Wrappers
  import opened Errors
  import opened PoolState
  import opened PoolRun
  import opened PoolReach

  const KIND := CallKind.Open(true, "a.i64", None)
  const OPEN := PoolState.Call(7, "s", 0, 1, 1, KIND)

  // ---- Capacity that no waiter is told about ----

  /** A pool for two workers with worker 0 leased to database 7. */
  function Pool2(nextWid: nat, nextLid: nat, reserved: map<Wid, Reservation>): PoolInner {
    PoolInner({0}, reserved, nextWid, nextLid, false, Serving, 0, false)
  }

  function Start(): State {
    State(Config(2, 2, 10, 10, 10), Pool2(1, 0, map[]), map[0 := Slot(Idle, true, None, None)],
          Losses(0, map[], {}, {}), map[], map[], map[])
  }

  function Bound7(): map<DbId, Database> {
    map[7 := Database("s", 1, Some(Lease(0, 1, 1, false)))]
  }

  /** The first opener has worker 0, its call is queued. */
  function One(): State {
    Start().(pool := Pool2(1, 1, map[]), slots := map[0 := Slot(Leased("s", 1), true, None, None)], dbs := Bound7(),
             tasks := map[3 := Calling(OPEN, Queued)], installs := map[1 := Install(7, 1, 0)])
  }

  /** The second opener has reserved worker 1. */
  function Two(): State {
    One().(pool := Pool2(2, 2, map[1 := StartingUp(Opener(4))]),
           dbs := Bound7()[8 := Database("s", 1, None)],
           tasks := map[3 := Calling(OPEN, Queued)][4 := Opening(8, "s", Acquiring(1, 2, Spawning(1)))])
  }

  /** The third opener waits, and the first one's call is at `stage`. */
  function Three(stage: CallStage, slots: map<Wid, Slot>, losses: Losses): State {
    Two().(pool := Pool2(2, 3, map[1 := StartingUp(Opener(4))]),
           dbs := Bound7()[8 := Database("s", 1, None)][9 := Database("s", 1, None)],
           tasks := map[3 := Calling(OPEN, stage)][4 := Opening(8, "s", Acquiring(1, 2, Spawning(1)))]
                    [5 := Opening(9, "s", Acquiring(1, 3, Waiting(0, 0)))],
           slots := slots, losses := losses)
  }

  function Alive(): map<Wid, Slot> { map[0 := Slot(Leased("s", 1), true, None, None)] }

  function Gone(): map<Wid, Slot> { map[0 := Slot(Dead, false, None, None)] }

  function Lost(forgetting: set<Wid>): Losses {
    Losses(1, map[0 := DeadWorker(None, None)], forgetting, {})
  }

  const NO_LOSS := Losses(0, map[], {}, {})

  lemma LeaseOne()
    ensures Calm(Start(), 3, 7)
    ensures var s := Acquirer(Start(), 3, 7, "s", StartOfScan(Start()));
            CanVisitIdle(s, 3, 0, KIND) && VisitIdle(s, 3, 0, KIND) == One()
  {
    var s := Acquirer(Start(), 3, 7, "s", StartOfScan(Start()));
    assert VisitIdle(s, 3, 0, KIND).dbs == Bound7() && VisitIdle(s, 3, 0, KIND).tasks == One().tasks;
  }

  lemma ReachOne()
    ensures Reachable(One())
  {
    LeaseOne();
    ReachInit(Start());
    ReachScan(Start(), 3, 7, "s");
    ReachAcquire(Acquirer(Start(), 3, 7, "s", StartOfScan(Start())), DoVisitIdle(3, 0, KIND), One());
  }

  /** A scan of worker 0 by the acquirer `t` of database `d`, which finds it leased. */
  lemma ScanZero(s: State, t: Tid, d: DbId, active: nat)
    requires 0 in s.pool.children && 0 in s.slots && s.slots[0].state.Leased?
    ensures var s0 := Acquirer(s, t, d, "s", Scanning(0, 0, active, {}, {}));
            CanVisitBusy(s0, t, 0) && VisitBusy(s0, t, 0) == Acquirer(s, t, d, "s", Scanning(0, 0, active + 1, {0}, {}))
  {
    var s0 := Acquirer(s, t, d, "s", Scanning(0, 0, active, {}, {}));
    assert {} + {0} == {0};
    assert VisitBusy(s0, t, 0).tasks == Acquirer(s, t, d, "s", Scanning(0, 0, active + 1, {0}, {})).tasks;
  }

  lemma CalmOne()
    ensures 0 in One().pool.children && 0 in One().slots && One().slots[0].state.Leased?
    ensures Calm(One(), 4, 8) && StartOfScan(One()) == Scanning(0, 0, 0, {}, {})
  {
  }

  lemma ReachTwoScanned()
    ensures Reachable(Acquirer(One(), 4, 8, "s", Scanning(0, 0, 1, {0}, {})))
  {
    CalmOne();
    ScanZero(One(), 4, 8, 0);
    ReachOne();
    ReachScan(One(), 4, 8, "s");
    ReachAcquire(Acquirer(One(), 4, 8, "s", Scanning(0, 0, 0, {}, {})), DoVisitBusy(4, 0),
                 Acquirer(One(), 4, 8, "s", Scanning(0, 0, 1, {0}, {})));
  }

  lemma ReachTwo()
    ensures Reachable(Two())
  {
    ReachTwoScanned();
    ReachAcquire(Acquirer(One(), 4, 8, "s", Scanning(0, 0, 1, {0}, {})), DoScanReserve(4), Two());
  }

  lemma CalmTwo()
    ensures 0 in Two().pool.children && 0 in Two().slots && Two().slots[0].state.Leased?
    ensures Calm(Two(), 5, 9) && StartOfScan(Two()) == Scanning(0, 0, 1, {}, {})
  {
    assert Two().pool.reserved.Keys == {1};
    assert |Two().pool.reserved| == |Two().pool.reserved.Keys|;
  }

  lemma ReachThreeScanned()
    ensures Reachable(Acquirer(Two(), 5, 9, "s", Scanning(0, 0, 2, {0}, {})))
  {
    CalmTwo();
    ScanZero(Two(), 5, 9, 1);
    ReachTwo();
    ReachScan(Two(), 5, 9, "s");
    ReachAcquire(Acquirer(Two(), 5, 9, "s", Scanning(0, 0, 1, {}, {})), DoVisitBusy(5, 0),
                 Acquirer(Two(), 5, 9, "s", Scanning(0, 0, 2, {0}, {})));
  }

  lemma WaitThree()
    ensures var s := Acquirer(Two(), 5, 9, "s", Scanning(0, 0, 2, {0}, {}));
            CanScanWait(s, 5) && ScanWait(s, 5) == Three(Queued, Alive(), NO_LOSS)
  {
    var s := Acquirer(Two(), 5, 9, "s", Scanning(0, 0, 2, {0}, {}));
    assert 1 in s.pool.reserved;
    assert s.pool.children - {} == s.pool.children;
    assert ScanWait(s, 5).tasks == Three(Queued, Alive(), NO_LOSS).tasks;
    assert ScanWait(s, 5).dbs == Three(Queued, Alive(), NO_LOSS).dbs;
  }

  lemma ReachThree()
    ensures Reachable(Three(Queued, Alive(), NO_LOSS))
  {
    WaitThree();
    ReachThreeScanned();
    ReachAcquire(Acquirer(Two(), 5, 9, "s", Scanning(0, 0, 2, {0}, {})), DoScanWait(5), Three(Queued, Alive(), NO_LOSS));
  }

  lemma LockThree()
    ensures var s := Three(Queued, Alive(), NO_LOSS); CanLockCall(s, 3) && LockCall(s, 3) == Three(Locked, Alive(), NO_LOSS)
  {
    assert LockCall(Three(Queued, Alive(), NO_LOSS), 3).tasks == Three(Locked, Alive(), NO_LOSS).tasks;
  }

  lemma ReachLocked()
    ensures Reachable(Three(Locked, Alive(), NO_LOSS))
  {
    LockThree();
    ReachThree();
    ReachCall(Three(Queued, Alive(), NO_LOSS), DoLockCall(3), Three(Locked, Alive(), NO_LOSS));
  }

  lemma ReachSent()
    ensures Reachable(Three(Running(false, None), Alive(), NO_LOSS))
  {
    ReachLocked();
    ReachCall(Three(Locked, Alive(), NO_LOSS), DoSend(3, false), Three(Running(false, None), Alive(), NO_LOSS));
  }

  lemma KillZeroSlot(s: State)
    requires s.slots == Alive() && s.losses == NO_LOSS
    ensures KillForLease(s, 0, 1) == s.(slots := Gone(), losses := Lost({0}))
  {
    assert Kill(s, 0).slots == Gone() && {} + {0} == {0} && Kill(s, 0).losses == Lost({0});
  }

  lemma KillZero()
    ensures var s := Three(Running(false, None), Alive(), NO_LOSS);
            && CanRetireCall(s, 3, TransportFailed)
            && RetireCall(s, 3, TransportFailed) == Three(Failed(WorkerCrashed), Gone(), Lost({0}))
  {
    var s := Three(Running(false, None), Alive(), NO_LOSS);
    KillZeroSlot(s);
    assert RetireCall(s, 3, TransportFailed).tasks == Three(Failed(WorkerCrashed), Gone(), Lost({0})).tasks;
  }

  lemma ReachDead()
    ensures Reachable(Three(Failed(WorkerCrashed), Gone(), Lost({0})))
  {
    KillZero();
    ReachSent();
    ReachCall(Three(Running(false, None), Alive(), NO_LOSS), DoRetireCall(3, TransportFailed),
              Three(Failed(WorkerCrashed), Gone(), Lost({0})));
  }

  /** A reachable state in which the third opener waits without a notification
      although startups, live children and pending forgets leave room for a worker:
      the retirement of worker 0 was dropped before it forgot its slot. No replacement
      is due either, although fewer workers than the minimum live or start. */
  lemma LostForgetLeavesRoom() returns (s: State)
    ensures Reachable(s) && 5 in s.tasks && s.tasks[5].Acquires() && s.tasks[5].open.at.Waiting? && !CanWake(s, 5)
    ensures |s.pool.reserved| + |LiveIn(s.slots, s.pool.children)| + |s.losses.forgetting| < s.cfg.maxWorkers
    ensures !s.pool.replenishDue && |s.pool.reserved| + |LiveIn(s.slots, s.pool.children)| < s.cfg.minWorkers
  {
    ReachDead();
    s := Three(Failed(WorkerCrashed), Gone(), Lost({}));
    ReachUpkeep(Three(Failed(WorkerCrashed), Gone(), Lost({0})), DoForgetLost(0), s);
    assert LiveIn(s.slots, s.pool.children) == {};
    assert s.pool.reserved.Keys == {1};
    assert |s.pool.reserved| == |s.pool.reserved.Keys|;
  }

  // ---- A retained debugger session without a pin ----

  const LAUNCH := PoolState.Call(7, "s", 0, 1, 1, Ordinary(DebugLaunch))
  const RETAINED := Success(true, "", true)

  /** Database 7 is open on worker 0; `tasks` are at work. */
  function Debugging(tasks: map<Tid, Task>): State {
    One().(tasks := tasks)
  }

  function Launching(stage: CallStage): State {
    Debugging(map[3 := Calling(LAUNCH, stage)])
  }

  lemma ReachDebugging()
    ensures Reachable(Debugging(map[]))
  {
    ReachOne();
    assert One().tasks - {3} == map[];
    ReachCall(One(), DoNeverDispatch(3), Debugging(map[]));
  }

  lemma LaunchStarts()
    ensures CanCallStart(Debugging(map[]), 3, 7, None, Ordinary(DebugLaunch))
    ensures CallStart(Debugging(map[]), 3, 7, None, Ordinary(DebugLaunch)) == Launching(Queued)
  {
  }

  lemma ReachLaunched()
    ensures Reachable(Launching(Queued))
  {
    LaunchStarts();
    ReachDebugging();
    ReachCall(Debugging(map[]), DoCallStart(3, 7, None, Ordinary(DebugLaunch)), Launching(Queued));
  }

  lemma ReachLaunchLocked()
    ensures Reachable(Launching(Locked))
  {
    ReachLaunched();
    ReachCall(Launching(Queued), DoLockCall(3), Launching(Locked));
  }

  lemma ReachLaunchSent()
    ensures Reachable(Launching(Running(true, None)))
  {
    ReachLaunchLocked();
    ReachCall(Launching(Locked), DoSend(3, true), Launching(Running(true, None)));
  }

  lemma ReachRetained()
    ensures Reachable(Launching(Pinning(true)))
  {
    ReachLaunchSent();
    ReachCall(Launching(Running(true, None)), DoSettleCall(3, RETAINED), Launching(Pinning(true)));
  }

  /** A retained start whose caller is dropped before its pin is applied: the lease
      that owns the session stays installed and usable, unpinned, and nothing is left
      that would pin it or retire its worker. */
  lemma DroppedStartStaysUnpinned() returns (before: State, after: State)
    ensures Reachable(before) && 3 in before.tasks && before.tasks[3] == Calling(LAUNCH, Pinning(true)) && SameLease(before, LAUNCH)
    ensures Reachable(after) && CanDrop(before, 3) && after == Drop(before, 3) && after.tasks == map[] && after.losses.retiring == {}
    ensures 7 in after.dbs && after.dbs[7].lease == Some(Lease(0, 1, 1, false)) && Usable(after.slots, after.dbs[7].lease.value)
  {
    before, after := Launching(Pinning(true)), Debugging(map[]);
    ReachRetained();
    assert before.tasks - {3} == map[];
    ReachUpkeep(before, DoDrop(3), after);
  }
}
