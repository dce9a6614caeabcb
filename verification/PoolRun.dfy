/** Runs of the pool machine: the steps as data, and what every run keeps. */
module PoolRun {
  import opened Wrappers
  import opened Errors
  import opened PoolState
  import opened PoolInvariant
  import opened PoolSteps

  datatype OpenStep =
    | DoNewDatabase(d: DbId, session: Session)
    | DoOpenReuse(t: Tid, d: DbId, kind: CallKind)
    | DoOpenStale(t: Tid, d: DbId)
    | DoStaleTake(t: Tid)
    | DoStaleRetire(t: Tid)
    | DoOpenFresh(t: Tid, d: DbId)
    | DoDraw(t: Tid)
    | DoDrawFail(t: Tid)

  datatype AcquireStep =
    | DoRegister(t: Tid)
    | DoScanStart(t: Tid)
    | DoVisitBusy(t: Tid, w: Wid)
    | DoVisitIdle(t: Tid, w: Wid, kind: CallKind)
    | DoScanWait(t: Tid)
    | DoScanReserve(t: Tid)
    | DoScanFail(t: Tid)
    | DoWake(t: Tid)
    | DoRejectAcquire(t: Tid)

  datatype StartupStep =
    | DoSpawnDone(w: Wid)
    | DoGiveUp(w: Wid)
    | DoInstallIdle(w: Wid)
    | DoInstallLeased(w: Wid, kind: CallKind)
    | DoDiscard(w: Wid)
    | DoDropReservation(w: Wid)

  datatype CallStep =
    | DoCallStart(t: Tid, d: DbId, expected: Option<Gen>, kind: CallKind)
    | DoLockCall(t: Tid)
    | DoRejectCall(t: Tid)
    | DoNeverDispatch(t: Tid)
    | DoSend(t: Tid, ok: bool)
    | DoRetireCall(t: Tid, cause: RetireCause)
    | DoSettleCall(t: Tid, reply: Reply)
    | DoSettleOpen(t: Tid, reply: Reply)
    | DoUnbind(t: Tid)
    | DoPin(t: Tid)

  datatype ReleaseStep =
    | DoClose(t: Tid, d: DbId, expected: Option<Gen>)
    | DoReleaseLock(t: Tid)
    | DoReleaseRetire(t: Tid, outcome: CloseOutcome)
    | DoReleaseIdle(t: Tid, outcome: CloseOutcome)
    | DoReapTake(t: Tid, d: DbId)
    | DoReapMark(t: Tid)

  datatype UpkeepStep =
    | DoGuardRetire(w: Wid, l: Lid)
    | DoIdleReap(w: Wid)
    | DoForget(w: Wid)
    | DoForgetLost(w: Wid)
    | DoReplenish
    | DoLoseTransport(w: Wid)
    | DoDrop(t: Tid)

  datatype ShutStep =
    | DoShutBegin
    | DoShutSnapshot
    | DoShutMark(w: Wid)
    | DoShutForget(w: Wid)
    | DoShutDone

  datatype Step =
    | Open(open: OpenStep)
    | Acquire(acquire: AcquireStep)
    | Startup(startup: StartupStep)
    | Call(call: CallStep)
    | Release(release: ReleaseStep)
    | Upkeep(upkeep: UpkeepStep)
    | Shut(shut: ShutStep)

  ghost predicate OpenStepEnabled(s: State, a: OpenStep) {
    match a
    case DoNewDatabase(d, session) => CanNewDatabase(s, d)
    case DoOpenReuse(t, d, kind) => CanOpenReuse(s, t, d, kind)
    case DoOpenStale(t, d) => CanOpenStale(s, t, d)
    case DoStaleTake(t) => CanStaleTake(s, t)
    case DoStaleRetire(t) => CanStaleRetire(s, t)
    case DoOpenFresh(t, d) => CanOpenFresh(s, t, d)
    case DoDraw(t) => CanDraw(s, t)
    case DoDrawFail(t) => CanDrawFail(s, t)
  }

  ghost function OpenStepApply(s: State, a: OpenStep): State
    requires OpenStepEnabled(s, a)
  {
    match a
    case DoNewDatabase(d, session) => NewDatabase(s, d, session)
    case DoOpenReuse(t, d, kind) => OpenReuse(s, t, d, kind)
    case DoOpenStale(t, d) => OpenStale(s, t, d)
    case DoStaleTake(t) => StaleTake(s, t)
    case DoStaleRetire(t) => StaleRetire(s, t)
    case DoOpenFresh(t, d) => OpenFresh(s, t, d)
    case DoDraw(t) => Draw(s, t)
    case DoDrawFail(t) => DrawFail(s, t)
  }

  ghost predicate AcquireStepEnabled(s: State, a: AcquireStep) {
    match a
    case DoRegister(t) => CanRegister(s, t)
    case DoScanStart(t) => CanScanStart(s, t)
    case DoVisitBusy(t, w) => CanVisitBusy(s, t, w)
    case DoVisitIdle(t, w, kind) => CanVisitIdle(s, t, w, kind)
    case DoScanWait(t) => CanScanWait(s, t)
    case DoScanReserve(t) => CanScanReserve(s, t)
    case DoScanFail(t) => CanScanFail(s, t)
    case DoWake(t) => CanWake(s, t)
    case DoRejectAcquire(t) => CanRejectAcquire(s, t)
  }

  ghost function AcquireStepApply(s: State, a: AcquireStep): State
    requires AcquireStepEnabled(s, a)
  {
    match a
    case DoRegister(t) => Register(s, t)
    case DoScanStart(t) => ScanStart(s, t)
    case DoVisitBusy(t, w) => VisitBusy(s, t, w)
    case DoVisitIdle(t, w, kind) => VisitIdle(s, t, w, kind)
    case DoScanWait(t) => ScanWait(s, t)
    case DoScanReserve(t) => ScanReserve(s, t)
    case DoScanFail(t) => ScanFail(s, t)
    case DoWake(t) => Wake(s, t)
    case DoRejectAcquire(t) => RejectAcquire(s, t)
  }

  ghost predicate StartupStepEnabled(s: State, a: StartupStep) {
    match a
    case DoSpawnDone(w) => CanSpawnDone(s, w)
    case DoGiveUp(w) => CanGiveUp(s, w)
    case DoInstallIdle(w) => CanInstallIdle(s, w)
    case DoInstallLeased(w, kind) => CanInstallLeased(s, w, kind)
    case DoDiscard(w) => CanDiscard(s, w)
    case DoDropReservation(w) => CanDropReservation(s, w)
  }

  ghost function StartupStepApply(s: State, a: StartupStep): State
    requires StartupStepEnabled(s, a)
  {
    match a
    case DoSpawnDone(w) => SpawnDone(s, w)
    case DoGiveUp(w) => GiveUp(s, w)
    case DoInstallIdle(w) => InstallIdle(s, w)
    case DoInstallLeased(w, kind) => InstallLeased(s, w, kind)
    case DoDiscard(w) => Discard(s, w)
    case DoDropReservation(w) => DropReservation(s, w)
  }

  ghost predicate CallStepEnabled(s: State, a: CallStep) {
    match a
    case DoCallStart(t, d, expected, kind) => CanCallStart(s, t, d, expected, kind)
    case DoLockCall(t) => CanLockCall(s, t)
    case DoRejectCall(t) => CanRejectCall(s, t)
    case DoNeverDispatch(t) => CanNeverDispatch(s, t)
    case DoSend(t, ok) => CanSend(s, t)
    case DoRetireCall(t, cause) => CanRetireCall(s, t, cause)
    case DoSettleCall(t, reply) => CanSettleCall(s, t, reply)
    case DoSettleOpen(t, reply) => CanSettleOpen(s, t, reply)
    case DoUnbind(t) => CanUnbind(s, t)
    case DoPin(t) => CanPin(s, t)
  }

  ghost function CallStepApply(s: State, a: CallStep): State
    requires CallStepEnabled(s, a)
  {
    match a
    case DoCallStart(t, d, expected, kind) => CallStart(s, t, d, expected, kind)
    case DoLockCall(t) => LockCall(s, t)
    case DoRejectCall(t) => RejectCall(s, t)
    case DoNeverDispatch(t) => NeverDispatch(s, t)
    case DoSend(t, ok) => Send(s, t, ok)
    case DoRetireCall(t, cause) => RetireCall(s, t, cause)
    case DoSettleCall(t, reply) => SettleCall(s, t, reply)
    case DoSettleOpen(t, reply) => SettleOpen(s, t, reply)
    case DoUnbind(t) => Unbind(s, t)
    case DoPin(t) => Pin(s, t)
  }

  ghost predicate ReleaseStepEnabled(s: State, a: ReleaseStep) {
    match a
    case DoClose(t, d, expected) => CanClose(s, t, d, expected)
    case DoReleaseLock(t) => CanReleaseLock(s, t)
    case DoReleaseRetire(t, o) => InRelease(s, t) && CloseRetires(o)
    case DoReleaseIdle(t, o) => InRelease(s, t) && !CloseRetires(o)
    case DoReapTake(t, d) => CanReapTake(s, t, d)
    case DoReapMark(t) => CanReapMark(s, t)
  }

  ghost function ReleaseStepApply(s: State, a: ReleaseStep): State
    requires ReleaseStepEnabled(s, a)
  {
    match a
    case DoClose(t, d, expected) => Close(s, t, d, expected)
    case DoReleaseLock(t) => ReleaseLock(s, t)
    case DoReleaseRetire(t, o) => ReleaseRetire(s, t)
    case DoReleaseIdle(t, o) => ReleaseIdle(s, t)
    case DoReapTake(t, d) => ReapTake(s, t, d)
    case DoReapMark(t) => ReapMark(s, t)
  }

  ghost predicate UpkeepStepEnabled(s: State, a: UpkeepStep) {
    match a
    case DoGuardRetire(w, l) => CanGuardRetire(s, w, l)
    case DoIdleReap(w) => CanIdleReap(s, w)
    case DoForget(w) => CanForget(s, w)
    case DoForgetLost(w) => CanForgetLost(s, w)
    case DoReplenish => CanReplenish(s)
    case DoLoseTransport(w) => CanLoseTransport(s, w)
    case DoDrop(t) => CanDrop(s, t)
  }

  ghost function UpkeepStepApply(s: State, a: UpkeepStep): State
    requires UpkeepStepEnabled(s, a)
  {
    match a
    case DoGuardRetire(w, l) => GuardRetire(s, w, l)
    case DoIdleReap(w) => IdleReap(s, w)
    case DoForget(w) => Forget(s, w)
    case DoForgetLost(w) => ForgetLost(s, w)
    case DoReplenish => Replenish(s)
    case DoLoseTransport(w) => LoseTransport(s, w)
    case DoDrop(t) => Drop(s, t)
  }

  ghost predicate ShutStepEnabled(s: State, a: ShutStep) {
    match a
    case DoShutBegin => CanShutBegin(s)
    case DoShutSnapshot => CanShutSnapshot(s)
    case DoShutMark(w) => CanShutMark(s, w)
    case DoShutForget(w) => CanShutForget(s, w)
    case DoShutDone => CanShutDone(s)
  }

  ghost function ShutStepApply(s: State, a: ShutStep): State
    requires ShutStepEnabled(s, a)
  {
    match a
    case DoShutBegin => ShutBegin(s)
    case DoShutSnapshot => ShutSnapshot(s)
    case DoShutMark(w) => ShutMark(s, w)
    case DoShutForget(w) => ShutForget(s, w)
    case DoShutDone => ShutDone(s)
  }

  ghost predicate Enabled(s: State, a: Step) {
    match a
    case Open(b) => OpenStepEnabled(s, b)
    case Acquire(b) => AcquireStepEnabled(s, b)
    case Startup(b) => StartupStepEnabled(s, b)
    case Call(b) => CallStepEnabled(s, b)
    case Release(b) => ReleaseStepEnabled(s, b)
    case Upkeep(b) => UpkeepStepEnabled(s, b)
    case Shut(b) => ShutStepEnabled(s, b)
  }

  ghost function Apply(s: State, a: Step): State
    requires Enabled(s, a)
  {
    match a
    case Open(b) => OpenStepApply(s, b)
    case Acquire(b) => AcquireStepApply(s, b)
    case Startup(b) => StartupStepApply(s, b)
    case Call(b) => CallStepApply(s, b)
    case Release(b) => ReleaseStepApply(s, b)
    case Upkeep(b) => UpkeepStepApply(s, b)
    case Shut(b) => ShutStepApply(s, b)
  }

  lemma OpenStepKeeps(s: State, a: OpenStep)
    requires Inv(s) && OpenStepEnabled(s, a)
    ensures Inv(OpenStepApply(s, a))
  {
    match a
    case DoNewDatabase(d, session) => NewDatabaseKeeps(s, d, session);
    case DoOpenReuse(t, d, kind) => OpenReuseKeeps(s, t, d, kind);
    case DoOpenStale(t, d) => OpenStaleKeeps(s, t, d);
    case DoStaleTake(t) => StaleTakeKeeps(s, t);
    case DoStaleRetire(t) => StaleRetireKeeps(s, t);
    case DoOpenFresh(t, d) => OpenFreshKeeps(s, t, d);
    case DoDraw(t) => DrawKeeps(s, t);
    case DoDrawFail(t) => DrawFailKeeps(s, t);
  }

  lemma AcquireStepKeeps(s: State, a: AcquireStep)
    requires Inv(s) && AcquireStepEnabled(s, a)
    ensures Inv(AcquireStepApply(s, a))
  {
    match a
    case DoRegister(t) => RegisterKeeps(s, t);
    case DoScanStart(t) => ScanStartKeeps(s, t);
    case DoVisitBusy(t, w) => VisitBusyKeeps(s, t, w);
    case DoVisitIdle(t, w, kind) => VisitIdleKeeps(s, t, w, kind);
    case DoScanWait(t) => ScanWaitKeeps(s, t);
    case DoScanReserve(t) => ScanReserveKeeps(s, t);
    case DoScanFail(t) => ScanFailKeeps(s, t);
    case DoWake(t) => WakeKeeps(s, t);
    case DoRejectAcquire(t) => KeepEnd(s, t);
  }

  lemma StartupStepKeeps(s: State, a: StartupStep)
    requires Inv(s) && StartupStepEnabled(s, a)
    ensures Inv(StartupStepApply(s, a))
  {
    match a
    case DoSpawnDone(w) => SpawnDoneKeeps(s, w);
    case DoGiveUp(w) => GiveUpKeeps(s, w);
    case DoInstallIdle(w) => InstallIdleKeeps(s, w);
    case DoInstallLeased(w, kind) => InstallLeasedKeeps(s, w, kind);
    case DoDiscard(w) => KeepKill(s, w);
    case DoDropReservation(w) => DropReservationKeeps(s, w);
  }

  lemma CallStepKeeps(s: State, a: CallStep)
    requires Inv(s) && CallStepEnabled(s, a)
    ensures Inv(CallStepApply(s, a))
  {
    match a
    case DoCallStart(t, d, expected, kind) => CallStartKeeps(s, t, d, expected, kind);
    case DoLockCall(t) => LockCallKeeps(s, t);
    case DoRejectCall(t) => RejectCallKeeps(s, t);
    case DoNeverDispatch(t) => KeepEnd(s, t);
    case DoSend(t, ok) => SendKeeps(s, t, ok);
    case DoRetireCall(t, cause) => RetireCallKeeps(s, t, cause);
    case DoSettleCall(t, reply) => SettleCallKeeps(s, t, reply);
    case DoSettleOpen(t, reply) => SettleOpenKeeps(s, t, reply);
    case DoUnbind(t) => UnbindKeeps(s, t);
    case DoPin(t) => PinKeeps(s, t);
  }

  lemma ReleaseStepKeeps(s: State, a: ReleaseStep)
    requires Inv(s) && ReleaseStepEnabled(s, a)
    ensures Inv(ReleaseStepApply(s, a))
  {
    match a
    case DoClose(t, d, expected) => CloseKeeps(s, t, d, expected);
    case DoReleaseLock(t) => ReleaseLockKeeps(s, t);
    case DoReleaseRetire(t, o) => ReleaseRetireKeeps(s, t);
    case DoReleaseIdle(t, o) => ReleaseIdleKeeps(s, t);
    case DoReapTake(t, d) => ReapTakeKeeps(s, t, d);
    case DoReapMark(t) => ReapMarkKeeps(s, t);
  }

  lemma UpkeepStepKeeps(s: State, a: UpkeepStep)
    requires Inv(s) && UpkeepStepEnabled(s, a)
    ensures Inv(UpkeepStepApply(s, a))
  {
    match a
    case DoGuardRetire(w, l) => GuardRetireKeeps(s, w, l);
    case DoIdleReap(w) => KeepKill(s, w);
    case DoForget(w) => ForgetKeeps(s, w);
    case DoForgetLost(w) => ForgetLostKeeps(s, w);
    case DoReplenish => ReplenishKeeps(s);
    case DoLoseTransport(w) => LoseTransportKeeps(s, w);
    case DoDrop(t) => DropKeeps(s, t);
  }

  lemma ShutStepKeeps(s: State, a: ShutStep)
    requires Inv(s) && ShutStepEnabled(s, a)
    ensures Inv(ShutStepApply(s, a))
  {
    match a
    case DoShutBegin => ShutBeginKeeps(s);
    case DoShutSnapshot => ShutSnapshotKeeps(s);
    case DoShutMark(w) => KeepKill(s, w);
    case DoShutForget(w) => ShutForgetKeeps(s, w);
    case DoShutDone => ShutDoneKeeps(s);
  }

  /** Every step keeps the invariant. */
  lemma StepKeeps(s: State, a: Step)
    requires Inv(s) && Enabled(s, a)
    ensures Inv(Apply(s, a))
  {
    match a
    case Open(b) => OpenStepKeeps(s, b);
    case Acquire(b) => AcquireStepKeeps(s, b);
    case Startup(b) => StartupStepKeeps(s, b);
    case Call(b) => CallStepKeeps(s, b);
    case Release(b) => ReleaseStepKeeps(s, b);
    case Upkeep(b) => UpkeepStepKeeps(s, b);
    case Shut(b) => ShutStepKeeps(s, b);
  }

  /** The pool after `warm_min`: some idle children within capacity, nothing else. */
  ghost predicate Init(s: State) {
    && |s.pool.children| <= s.cfg.maxWorkers
    && s.slots.Keys == s.pool.children
    && (forall w :: w in s.slots ==> s.slots[w].state.Idle? && w < s.pool.nextWid)
    && s.pool.reserved == map[] && s.pool.nextLid == 0 && s.pool.nextWid <= s.cfg.maxWid
    && !s.pool.shuttingDown && s.pool.shut == Serving && !s.pool.replenishDue
    && s.losses == Losses(0, map[], {}, {})
    && s.dbs == map[] && s.tasks == map[] && s.installs == map[]
  }

  lemma InitInv(s: State)
    requires Init(s)
    ensures Inv(s)
  {
  }

  ghost predicate Next(s: State, a: Step, s1: State) {
    Enabled(s, a) && s1 == Apply(s, a)
  }

  ghost predicate NextAt(states: seq<State>, steps: seq<Step>, i: int) {
    0 <= i < |steps| && i + 1 < |states| ==> Next(states[i], steps[i], states[i + 1])
  }

  /** `states` is a run of the machine that takes the steps `steps`. */
  ghost predicate Run(states: seq<State>, steps: seq<Step>) {
    && |states| == |steps| + 1
    && Init(states[0])
    && forall i {:trigger NextAt(states, steps, i)} :: NextAt(states, steps, i)
  }

  /** Every state of every run satisfies the invariant. */
  lemma {:induction false} RunKeeps(states: seq<State>, steps: seq<Step>, i: nat)
    requires Run(states, steps) && i < |states|
    ensures Inv(states[i])
  {
    if i == 0 {
      InitInv(states[0]);
    } else {
      RunKeeps(states, steps, i - 1);
      assert NextAt(states, steps, i - 1);
      StepKeeps(states[i - 1], steps[i - 1]);
    }
  }
}
