/** The decisions of the pool in terms of what was observed: which replies and close
    outcomes keep a worker, which errors keep a binding, what each retirement does to
    its slot, and which bindings are reused, closed or reaped. */
module PoolDecisions {
  import opened Wrappers
  import opened Errors
  import opened PoolState
  import opened PoolInvariant
  import opened PoolRun
  import opened PoolLifecycle
  import opened PoolShutdown

  /** The step ends the release of lease `l` on worker `w` with outcome `o` of the close. */
  ghost predicate EndsRelease(s: State, a: Step, w: Wid, l: Lid, o: CloseOutcome) {
    && a.Release? && (a.release == DoReleaseRetire(a.release.t, o) || a.release == DoReleaseIdle(a.release.t, o))
    && a.release.t in s.tasks && s.tasks[a.release.t] == Disposing(w, l, ClosingDown)
  }

  lemma ReleaseEffect(s: State, a: ReleaseStep, w: Wid, l: Lid, o: CloseOutcome)
    requires Inv(s) && ReleaseStepEnabled(s, a) && EndsRelease(s, Release(a), w, l, o)
    ensures w in s.slots && w in ReleaseStepApply(s, a).slots && a.t !in ReleaseStepApply(s, a).tasks
    ensures var after := ReleaseStepApply(s, a).slots[w];
            if s.slots[w].state == Dead || Unsettled(o) then after == Slot(Dead, false, None, None)
            else after == s.slots[w].(state := Idle, path := None, artifacts := None)
  {
    CloseRetiresIff(o);
    assert SlotAt(s.slots, s.tasks, a.t) && LossAt(s.slots, s.losses, w);
  }

  /** The outcome of a close decides over the worker: a deadline, a protocol error, a lost
      transport, or a result that reports a closed channel, a timeout, a cancellation or an
      incomplete teardown leaves it dead; a success, any other error result, and a
      request that was never sent leave it idle, unless it died before. */
  lemma CloseOutcomeDecides(states: seq<State>, steps: seq<Step>, i: nat, w: Wid, l: Lid, o: CloseOutcome)
    requires Run(states, steps) && i < |steps| && EndsRelease(states[i], steps[i], w, l, o)
    ensures w in states[i].slots && w in states[i + 1].slots && steps[i].release.t !in states[i + 1].tasks
    ensures var after := states[i + 1].slots[w];
            if states[i].slots[w].state == Dead || Unsettled(o) then after == Slot(Dead, false, None, None)
            else after == states[i].slots[w].(state := Idle, path := None, artifacts := None)
  {
    RunKeeps(states, steps, i);
    assert NextAt(states, steps, i);
    ReleaseEffect(states[i], steps[i].release, w, l, o);
  }

  // ---- Replies to running calls ----

  /** The text of an error result ends a call of `tool` by retiring its worker. */
  predicate FatalText(tool: Tool, m: string) {
    || SaysClosed(m)
    || (SaysTimeout(m) && (tool.OpenIdb? || tool.DebugLaunch? || tool.DebugAttach? || tool.DebugModules? || tool.DebugStop?))
    || (SaysCancelled(m) && tool.OpenIdb?)
  }

  /** An error result settles a call exactly when its text is not fatal for the tool,
      and retires the worker only when it is. */
  lemma TextDecides(states: seq<State>, steps: seq<Step>, i: nat, t: Tid, m: string)
    requires Run(states, steps) && i < |steps|
    ensures steps[i] == Step.Call(DoSettleCall(t, ErrorResult(m))) ==>
              RunningOn(states[i], t) && !FatalText(states[i].tasks[t].c.kind.ToolOf(), m)
    ensures steps[i] == Step.Call(DoSettleOpen(t, ErrorResult(m))) ==> !FatalText(OpenIdb, m)
    ensures steps[i] == Step.Call(DoRetireCall(t, FatalReply(m))) ==>
              RunningOn(states[i], t) && FatalText(states[i].tasks[t].c.kind.ToolOf(), m)
  {
    assert NextAt(states, steps, i);
    FatalTexts(OpenIdb, m);
    if RunningOn(states[i], t) { FatalTexts(states[i].tasks[t].c.kind.ToolOf(), m); }
  }

  lemma RetireEffect(s: State, t: Tid, cause: RetireCause)
    requires Inv(s) && CanRetireCall(s, t, cause)
    ensures var s1, w := RetireCall(s, t, cause), s.tasks[t].c.worker;
            && w in s1.slots && s1.slots[w] == Slot(Dead, false, None, None)
            && (forall x :: x in s.slots && x != w ==> x in s1.slots && s1.slots[x] == s.slots[x])
            && t in s1.tasks && s1.tasks[t] == s.tasks[t].(call := Failed(RetireError(cause)))
  {
    assert SlotAt(s.slots, s.tasks, t) && LossAt(s.slots, s.losses, s.tasks[t].c.worker);
  }

  /** A call that ends by retirement leaves its own worker dead, touches no other
      worker, and fails with the error that names what happened. */
  lemma RetiredCallLeavesDead(states: seq<State>, steps: seq<Step>, i: nat, t: Tid, cause: RetireCause)
    requires Run(states, steps) && i < |steps| && steps[i] == Step.Call(DoRetireCall(t, cause))
    ensures RunningOn(states[i], t)
    ensures var w := states[i].tasks[t].c.worker;
            && w in states[i + 1].slots && states[i + 1].slots[w] == Slot(Dead, false, None, None)
            && (forall x :: x in states[i].slots && x != w ==> x in states[i + 1].slots && states[i + 1].slots[x] == states[i].slots[x])
            && t in states[i + 1].tasks && states[i + 1].tasks[t].Calling?
            && (match cause
                case CallCancelled => states[i + 1].tasks[t].call == Failed(WorkerRetired)
                case CallTimedOut => states[i + 1].tasks[t].call == Failed(WorkerRetired)
                case TransportFailed => states[i + 1].tasks[t].call == Failed(WorkerCrashed)
                case CrashMarked => states[i + 1].tasks[t].call == Failed(SdkCrashed)
                case LostAtSettlement => states[i + 1].tasks[t].call == Failed(WorkerCrashed)
                case FatalReply(m) => states[i + 1].tasks[t].call.Failed?)
  {
    RunKeeps(states, steps, i);
    assert NextAt(states, steps, i);
    RetireEffect(states[i], t, cause);
  }

  lemma GuardEffect(s: State, w: Wid, l: Lid)
    requires Inv(s) && CanGuardRetire(s, w, l)
    ensures var s1 := GuardRetire(s, w, l);
            && w in s1.slots
            && s1.slots == (if s.slots[w].state.BelongsTo(l) then s.slots[w := Slot(Dead, false, None, None)] else s.slots)
  {
  }

  /** A delayed retirement is scoped to its lease: it kills the worker if that still
      is leased or closing under the lease, and changes no slot otherwise. */
  lemma GuardIsScoped(states: seq<State>, steps: seq<Step>, i: nat, w: Wid, l: Lid)
    requires Run(states, steps) && i < |steps| && steps[i] == Upkeep(DoGuardRetire(w, l))
    ensures w in states[i].slots
    ensures var k := states[i].slots[w].state;
            if (k.Leased? && k.lease == l) || (k.Closing? && k.lease == l)
            then states[i + 1].slots == states[i].slots[w := Slot(Dead, false, None, None)]
            else states[i + 1].slots == states[i].slots
  {
    RunKeeps(states, steps, i);
    assert NextAt(states, steps, i);
    GuardEffect(states[i], w, l);
  }

  // ---- Admission and dispatch ----

  /** A call is refused at admission exactly when its worker is not leased to its session
      under its lease, with WorkerCrashed for a dead worker and DatabaseReplaced otherwise;
      the refusal changes nothing else. */
  lemma RefusalTells(states: seq<State>, steps: seq<Step>, i: nat, t: Tid)
    requires Run(states, steps) && i < |steps| && steps[i] == Step.Call(DoRejectCall(t))
    ensures t in states[i].tasks && states[i].tasks[t].Calling? && states[i].tasks[t].c.worker in states[i].slots
    ensures var c := states[i].tasks[t].c;
            && states[i].slots[c.worker].state != Leased(c.session, c.lease)
            && states[i + 1] == states[i].(tasks := states[i].tasks[t :=
                 Calling(c, Failed(if states[i].slots[c.worker].state == Dead then WorkerCrashed else DatabaseReplaced))])
  {
    assert NextAt(states, steps, i);
  }

  /** Only the dispatch of an open publishes anything: a failed send and any other call
      leave every slot as it is. */
  lemma OnlyOpensPublish(states: seq<State>, steps: seq<Step>, i: nat, t: Tid, ok: bool)
    requires Run(states, steps) && i < |steps| && steps[i] == Step.Call(DoSend(t, ok))
    ensures t in states[i].tasks && states[i].tasks[t].Calling?
    ensures !ok || states[i].tasks[t].c.kind.Ordinary? ==> states[i + 1] == states[i].(tasks := states[i + 1].tasks)
    ensures t in states[i + 1].tasks && states[i + 1].tasks[t].Calling? && states[i + 1].tasks[t].c == states[i].tasks[t].c
    ensures states[i + 1].tasks[t].call.Running? && states[i + 1].tasks[t].call.sent == ok
  {
    assert NextAt(states, steps, i);
  }

  // ---- Startups and shutdown ----

  /** A started worker is connected and empty, leased under the lease of the opener
      that waits for it or idle; a discarded or expired one is dead. */
  lemma StartupEffects(states: seq<State>, steps: seq<Step>, i: nat, w: Wid)
    requires Run(states, steps) && i < |steps|
    ensures steps[i] == Startup(DoSpawnDone(w)) ==>
              && w in states[i].pool.reserved && states[i].pool.reserved[w].StartingUp? && w in states[i + 1].slots
              && states[i + 1].slots[w].transport && states[i + 1].slots[w].path == None && states[i + 1].slots[w].artifacts == None
              && match states[i].pool.reserved[w].starter
                 case Replenisher => states[i + 1].slots[w].state == Idle
                 case Opener(t) => t in states[i].tasks && states[i].tasks[t].Acquires()
                                   && states[i + 1].slots[w].state == Leased(states[i].tasks[t].session, states[i].tasks[t].open.l)
    ensures steps[i] == Startup(DoDiscard(w)) || steps[i] == Upkeep(DoIdleReap(w)) ==>
              w in states[i + 1].slots && states[i + 1].slots[w] == Slot(Dead, false, None, None)
  {
    assert NextAt(states, steps, i);
  }

  /** Shutdown is announced by its first step, and from then on no scan starts, no
      worker is reserved and no startup is installed. */
  lemma ShutdownStopsAcquisition(states: seq<State>, steps: seq<Step>, i: nat, j: nat)
    requires Run(states, steps) && i < j < |steps| && steps[i] == Shut(DoShutBegin)
    ensures states[j].pool.shuttingDown
    ensures steps[j].Acquire? ==> !steps[j].acquire.DoScanStart? && !steps[j].acquire.DoScanReserve?
    ensures steps[j].Startup? ==> !steps[j].startup.DoInstallIdle? && !steps[j].startup.DoInstallLeased?
  {
    ShutBeginEffect(states, steps, i);
    RunGrows(states, steps, i + 1, j);
    assert NextAt(states, steps, j);
  }

  lemma ShutBeginEffect(states: seq<State>, steps: seq<Step>, i: nat)
    requires Run(states, steps) && i < |steps| && steps[i] == Shut(DoShutBegin)
    ensures states[i + 1].pool.shuttingDown
  {
    assert NextAt(states, steps, i);
  }

  // ---- Errors that keep a binding ----

  /** Future `t` failed in step `h`, by a settled reply to its open, and has waited since. */
  ghost predicate FailedOpen(states: seq<State>, steps: seq<Step>, h: nat, i: nat, t: Tid, reply: Reply) {
    && Run(states, steps) && h < i < |steps| && steps[h] == Step.Call(DoSettleOpen(t, reply))
    && t in states[h + 1].tasks
    && (forall k | h < k <= i :: t in states[k].tasks && states[k].tasks[t] == states[h + 1].tasks[t])
  }

  lemma SettledOpenError(states: seq<State>, steps: seq<Step>, h: nat, t: Tid, reply: Reply)
    requires Run(states, steps) && h < |steps| && steps[h] == Step.Call(DoSettleOpen(t, reply)) && t in states[h + 1].tasks
    ensures RunningOn(states[h], t) && states[h].tasks[t].c.kind.Open?
    ensures states[h + 1].tasks[t] == Calling(states[h].tasks[t].c, Failed(ReplyError(reply)))
    ensures !(reply.ErrorResult? && FatalText(OpenIdb, reply.message))
  {
    RunKeeps(states, steps, h);
    assert NextAt(states, steps, h);
    assert SlotAt(states[h].slots, states[h].tasks, t);
    if reply.ErrorResult? { FatalTexts(OpenIdb, reply.message); }
  }

  lemma UnbindStep(states: seq<State>, steps: seq<Step>, i: nat, t: Tid)
    requires Run(states, steps) && i < |steps| && steps[i] == Step.Call(DoUnbind(t))
    ensures CanUnbind(states[i], t) && states[i + 1] == Unbind(states[i], t)
  {
    assert NextAt(states, steps, i);
  }

  lemma SettledErrorKeepsReused(reply: Reply)
    requires !(reply.ErrorResult? && FatalText(OpenIdb, reply.message))
    ensures !OpenErrorReleasesLease(false, ReplyError(reply)) && OpenErrorReleasesLease(true, ReplyError(reply))
  {
    if reply.ErrorResult? { ClassifiedByText(reply.message); }
    ErrorsThatRelease(ReplyError(reply));
  }

  /** After an open that failed with a settled reply, its caller keeps a reused lease
      bound, and gives a fresh one back: it unbinds it and starts its release. */
  lemma SettledOpenFailure(states: seq<State>, steps: seq<Step>, h: nat, i: nat, t: Tid, reply: Reply)
    requires FailedOpen(states, steps, h, i, t, reply) && steps[i] == Step.Call(DoUnbind(t))
    ensures RunningOn(states[h], t) && states[h].tasks[t].c.kind.Open?
    ensures var s, s1, c := states[i], states[i + 1], states[h].tasks[t].c;
            if c.kind.freshLease && SameGeneration(s, c)
            then && s1.dbs == s.dbs[c.db := s.dbs[c.db].(lease := None)]
                 && t in s1.tasks && s1.tasks[t] == Disposing(s.dbs[c.db].lease.value.worker, s.dbs[c.db].lease.value.lease, Releasing)
            else s1.dbs == s.dbs && t !in s1.tasks
  {
    SettledOpenError(states, steps, h, t, reply);
    SettledErrorKeepsReused(reply);
    UnbindStep(states, steps, i, t);
  }

  /** A settled reply to any other call changes no binding, slot or pool state, and
      leaves a pin decision exactly for a debugger start that reports a retained session
      and for a stop that succeeded. */
  lemma SettledCallKeeps(states: seq<State>, steps: seq<Step>, i: nat, t: Tid, reply: Reply)
    requires Run(states, steps) && i < |steps| && steps[i] == Step.Call(DoSettleCall(t, reply))
    ensures RunningOn(states[i], t) && states[i].tasks[t].c.kind.Ordinary?
    ensures states[i + 1] == states[i].(tasks := states[i + 1].tasks)
    ensures var tool := states[i].tasks[t].c.kind.tool;
            var retained := || (reply.Success? && reply.parsed && reply.retained)
                            || (reply.ErrorResult? && "Debugger start incomplete; active session retained: " <= reply.message);
            if (tool == DebugLaunch || tool == DebugAttach) && retained then Decided(states[i + 1], t, states[i].tasks[t].c, true)
            else if tool == DebugStop && reply.Success? && reply.parsed then Decided(states[i + 1], t, states[i].tasks[t].c, false)
            else t !in states[i + 1].tasks
  {
    assert NextAt(states, steps, i);
    if reply.ErrorResult? { RetainedText(reply.message); }
  }

  ghost predicate Decided(s: State, t: Tid, c: Call, pinned: bool) {
    t in s.tasks && s.tasks[t] == Calling(c, Pinning(pinned))
  }

  /** A successful stop that is applied to the lease it served leaves it unpinned. */
  lemma StopUnpins(states: seq<State>, steps: seq<Step>, i: nat, t: Tid)
    requires Run(states, steps) && i < |steps| && steps[i] == Step.Call(DoPin(t))
    requires t in states[i].tasks && states[i].tasks[t].Calling? && states[i].tasks[t].call == Pinning(false)
    ensures var c := states[i].tasks[t].c;
            && c.db in states[i].dbs && c.db in states[i + 1].dbs
            && (SameLease(states[i], c) ==>
                  states[i + 1].dbs[c.db].lease == Some(states[i].dbs[c.db].lease.value.(debugPinned := false)))
            && (!SameLease(states[i], c) ==> states[i + 1].dbs == states[i].dbs)
  {
    assert NextAt(states, steps, i);
  }

  // ---- Bindings that are reused, closed or reaped ----

  /** The worker of the binding of `d` still serves it: leased under that lease, transport open. */
  ghost predicate Serving(s: State, d: DbId) {
    && d in s.dbs && s.dbs[d].lease.Some? && s.dbs[d].lease.value.worker in s.slots
    && var b := s.dbs[d].lease.value;
       s.slots[b.worker].state == Leased(s.dbs[d].session, b.lease) && s.slots[b.worker].transport
  }

  lemma ServingIsUsable(s: State, d: DbId)
    requires Inv(s) && Bound(s, d)
    ensures Usable(s.slots, s.dbs[d].lease.value) <==> Serving(s, d)
  {
    assert BindingAt(s.slots, s.dbs, d);
  }

  /** An open reuses a binding exactly if its worker still serves it; otherwise the
      reopening takes the stale lease, and it retires that worker before it asks for another. */
  lemma ReuseOnlyServing(states: seq<State>, steps: seq<Step>, i: nat, t: Tid, d: DbId, kind: CallKind)
    requires Run(states, steps) && i < |steps|
    ensures steps[i] == Step.Open(DoOpenReuse(t, d, kind)) ==> Serving(states[i], d)
    ensures steps[i] == Step.Open(DoOpenStale(t, d)) ==> d in states[i].dbs && states[i].dbs[d].lease.Some? && !Serving(states[i], d)
  {
    RunKeeps(states, steps, i);
    assert NextAt(states, steps, i);
    if Bound(states[i], d) { ServingIsUsable(states[i], d); }
  }

  /** An open counts as fresh exactly when it installed the lease it runs on. */
  lemma FreshMeansInstalled(states: seq<State>, steps: seq<Step>, i: nat, t: Tid, d: DbId, w: Wid, kind: CallKind)
    requires Run(states, steps) && i < |steps|
    ensures steps[i] == Step.Open(DoOpenReuse(t, d, kind)) ==> kind.Open? && !kind.freshLease && states[i + 1].dbs == states[i].dbs
    ensures steps[i] == Acquire(DoVisitIdle(t, w, kind)) || steps[i] == Startup(DoInstallLeased(w, kind)) ==>
              && kind.Open? && kind.freshLease && states[i + 1].installs.Keys > states[i].installs.Keys
              && w in states[i + 1].slots && w in states[i + 1].pool.children
  {
    RunKeeps(states, steps, i);
    assert NextAt(states, steps, i);
    if steps[i] == Acquire(DoVisitIdle(t, w, kind)) {
      assert ClaimAt(states[i].tasks, states[i].installs, states[i].pool.nextLid, t);
    } else if steps[i] == Startup(DoInstallLeased(w, kind)) {
      assert ClaimAt(states[i].tasks, states[i].installs, states[i].pool.nextLid, states[i].pool.reserved[w].starter.task);
      assert ReservationAt(states[i].pool.reserved, states[i].slots, states[i].tasks, w);
    }
  }

  lemma StaleEffect(s: State, t: Tid)
    requires Inv(s) && CanStaleRetire(s, t)
    ensures var s1, w := StaleRetire(s, t), s.tasks[t].open.w;
            w in s1.slots && s1.slots[w] == Slot(Dead, false, None, None) && t in s1.tasks && s1.tasks[t].open == NeedLease
  {
    assert SlotAt(s.slots, s.tasks, t) && LossAt(s.slots, s.losses, s.tasks[t].open.w);
  }

  lemma StaleWorkerIsRetired(states: seq<State>, steps: seq<Step>, i: nat, t: Tid)
    requires Run(states, steps) && i < |steps| && steps[i] == Step.Open(DoStaleRetire(t))
    ensures t in states[i].tasks && states[i].tasks[t].Opening? && states[i].tasks[t].open.StaleTaken?
    ensures var w := states[i].tasks[t].open.w;
            w in states[i + 1].slots && states[i + 1].slots[w] == Slot(Dead, false, None, None)
  {
    RunKeeps(states, steps, i);
    assert NextAt(states, steps, i);
    StaleEffect(states[i], t);
  }

  /** A conditional close takes the binding of exactly that generation, whole. */
  lemma CloseTakesGeneration(states: seq<State>, steps: seq<Step>, i: nat, t: Tid, d: DbId, expected: Option<Gen>)
    requires Run(states, steps) && i < |steps| && steps[i] == Release(DoClose(t, d, expected))
    ensures d in states[i].dbs && states[i].dbs[d].lease.Some?
    ensures var b := states[i].dbs[d].lease.value;
            && (expected.Some? ==> b.generation == expected.value)
            && states[i + 1].dbs == states[i].dbs[d := states[i].dbs[d].(lease := None)]
            && t in states[i + 1].tasks && states[i + 1].tasks[t] == Disposing(b.worker, b.lease, Releasing)
  {
    assert NextAt(states, steps, i);
  }

  /** The reaper takes a lease only from a worker that does not serve it, and kills that worker. */
  lemma ReapsOnlyLost(states: seq<State>, steps: seq<Step>, i: nat, t: Tid, d: DbId)
    requires Run(states, steps) && i < |steps|
    ensures steps[i] == Release(DoReapTake(t, d)) ==>
              && d in states[i].dbs && states[i].dbs[d].lease.Some? && !Serving(states[i], d)
              && states[i + 1].dbs == states[i].dbs[d := states[i].dbs[d].(lease := None)]
              && t in states[i + 1].tasks
              && states[i + 1].tasks[t] == Disposing(states[i].dbs[d].lease.value.worker, states[i].dbs[d].lease.value.lease, Reaping)
    ensures steps[i] == Release(DoReapMark(t)) ==>
              && t in states[i].tasks && states[i].tasks[t].Disposing? && states[i].tasks[t].w in states[i + 1].slots
              && states[i + 1].slots[states[i].tasks[t].w].state == Dead
  {
    assert NextAt(states, steps, i);
  }

  // ---- Forgotten slots ----

  lemma {:induction false} NeverChildAgain(states: seq<State>, steps: seq<Step>, i: nat, j: nat, w: Wid)
    requires Run(states, steps) && i <= j < |states| && w < states[i].pool.nextWid
    requires w !in states[i].pool.reserved && w !in states[i].pool.children
    ensures w !in states[j].pool.children
    decreases j
  {
    if i < j {
      NeverChildAgain(states, steps, i, j - 1, w);
      WorkerIdsNeverReused(states, steps, i, j - 1, w);
      RunStepWinds(states, steps, j - 1);
    }
  }

  /** Forgetting drops exactly that child and notifies; unless the worker was never
      installed, it is no child ever again. */
  lemma ForgottenForGood(states: seq<State>, steps: seq<Step>, i: nat, j: nat, w: Wid)
    requires Run(states, steps) && i < j < |states| && steps[i] == Upkeep(DoForget(w))
    ensures states[i + 1].pool.children == states[i].pool.children - {w}
    ensures states[i + 1].pool.notifications > states[i].pool.notifications
    ensures w !in states[i].pool.reserved ==> w !in states[j].pool.children
  {
    ForgetEffect(states, steps, i, w);
    RunKeeps(states, steps, i);
    assert LossAt(states[i].slots, states[i].losses, w);
    assert WorkerAt(states[i].pool.children, states[i].pool.reserved, states[i].pool.nextWid, states[i].slots, w);
    if w !in states[i].pool.reserved { NeverChildAgain(states, steps, i + 1, j, w); }
  }

  lemma ForgetEffect(states: seq<State>, steps: seq<Step>, i: nat, w: Wid)
    requires Run(states, steps) && i < |steps| && steps[i] == Upkeep(DoForget(w))
    ensures w in states[i].losses.forgetting && states[i + 1].slots == states[i].slots
    ensures states[i + 1].pool == Notify(states[i].pool).(children := states[i].pool.children - {w}, replenishDue := true)
  {
    assert NextAt(states, steps, i);
  }
}
