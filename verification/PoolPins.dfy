/** Debug pins: who sets them, for which lease, and what ends them. */
module PoolPins {
  import opened Wrappers
  import opened Errors
  import opened PoolState
  import opened PoolInvariant
  import opened PoolSteps
  import opened PoolRun

  ghost predicate Pinned(s: State, d: DbId) {
    d in s.dbs && s.dbs[d].lease.Some? && s.dbs[d].lease.value.debugPinned
  }

  /** Task `t` waits to apply `pinned` to the lease that served its call. */
  ghost predicate Decides(s: State, t: Tid, pinned: bool) {
    t in s.tasks && s.tasks[t].Calling? && s.tasks[t].call == Pinning(pinned)
  }

  /** The step applies a pin decision on the current lease of `d`. */
  ghost predicate Applies(s: State, a: Step, d: DbId, pinned: bool) {
    && a.Call? && a.call.DoPin? && Decides(s, a.call.t, pinned)
    && s.tasks[a.call.t].c.db == d && SameLease(s, s.tasks[a.call.t].c)
  }

  /** A pinned binding was pinned before, or this step pins it. */
  ghost predicate PinFrom(s: State, a: Step, s1: State, d: DbId) {
    Pinned(s1, d) ==>
      || (Pinned(s, d) && s.dbs[d].lease == s1.dbs[d].lease && !Applies(s, a, d, false))
      || (Applies(s, a, d, true) && s1.dbs[d].lease.value.(debugPinned := s.dbs[d].lease.value.debugPinned) == s.dbs[d].lease.value)
  }

  lemma OpenPins(s: State, a: OpenStep, d: DbId)
    requires OpenStepEnabled(s, a)
    ensures PinFrom(s, Step.Open(a), OpenStepApply(s, a), d)
  {
  }

  lemma AcquirePins(s: State, a: AcquireStep, d: DbId)
    requires AcquireStepEnabled(s, a)
    ensures PinFrom(s, Acquire(a), AcquireStepApply(s, a), d)
  {
  }

  lemma StartupPins(s: State, a: StartupStep, d: DbId)
    requires StartupStepEnabled(s, a)
    ensures PinFrom(s, Startup(a), StartupStepApply(s, a), d)
  {
  }

  lemma PinPins(s: State, t: Tid, d: DbId)
    requires CanPin(s, t)
    ensures PinFrom(s, Step.Call(DoPin(t)), Pin(s, t), d)
  {
  }

  lemma CallPins(s: State, a: CallStep, d: DbId)
    requires CallStepEnabled(s, a)
    ensures PinFrom(s, Step.Call(a), CallStepApply(s, a), d)
  {
    match a
    case DoPin(t) => PinPins(s, t, d);
    case _ =>
  }

  lemma ReleasePins(s: State, a: ReleaseStep, d: DbId)
    requires ReleaseStepEnabled(s, a)
    ensures PinFrom(s, Release(a), ReleaseStepApply(s, a), d)
  {
  }

  lemma UpkeepPins(s: State, a: UpkeepStep, d: DbId)
    requires UpkeepStepEnabled(s, a)
    ensures PinFrom(s, Upkeep(a), UpkeepStepApply(s, a), d)
  {
  }

  lemma StepPins(s: State, a: Step, d: DbId)
    requires Enabled(s, a)
    ensures PinFrom(s, a, Apply(s, a), d)
  {
    match a
    case Open(b) => OpenPins(s, b, d);
    case Acquire(b) => AcquirePins(s, b, d);
    case Startup(b) => StartupPins(s, b, d);
    case Call(b) => CallPins(s, b, d);
    case Release(b) => ReleasePins(s, b, d);
    case Upkeep(b) => UpkeepPins(s, b, d);
    case Shut(b) =>
  }

  lemma RunStepPins(states: seq<State>, steps: seq<Step>, i: nat, d: DbId)
    requires Run(states, steps) && i < |steps|
    ensures PinFrom(states[i], steps[i], states[i + 1], d)
  {
    assert NextAt(states, steps, i);
    StepPins(states[i], steps[i], d);
  }

  /** A task that decides was already deciding, or its reply settles in this step. */
  ghost predicate DecisionFrom(s: State, a: Step, s1: State, t: Tid) {
    t in s1.tasks && s1.tasks[t].Calling? && s1.tasks[t].call.Pinning? ==>
      || (t in s.tasks && s.tasks[t] == s1.tasks[t])
      || (&& a.Call? && a.call.DoSettleCall? && a.call.t == t && RunningOn(s, t) && s.tasks[t].c == s1.tasks[t].c
          && s.tasks[t].c.kind.Ordinary?
          && (if s1.tasks[t].call.pinned then StartRetains(s.tasks[t].c.kind.tool, a.call.reply)
              else StopSucceeds(s.tasks[t].c.kind.tool, a.call.reply)))
  }

  lemma OpenDecides(s: State, a: OpenStep, t: Tid)
    requires OpenStepEnabled(s, a)
    ensures DecisionFrom(s, Step.Open(a), OpenStepApply(s, a), t)
  {
  }

  lemma AcquireDecides(s: State, a: AcquireStep, t: Tid)
    requires AcquireStepEnabled(s, a)
    ensures DecisionFrom(s, Acquire(a), AcquireStepApply(s, a), t)
  {
  }

  lemma StartupDecides(s: State, a: StartupStep, t: Tid)
    requires StartupStepEnabled(s, a)
    ensures DecisionFrom(s, Startup(a), StartupStepApply(s, a), t)
  {
  }

  lemma CallDecides(s: State, a: CallStep, t: Tid)
    requires CallStepEnabled(s, a)
    ensures DecisionFrom(s, Step.Call(a), CallStepApply(s, a), t)
  {
  }

  lemma ReleaseDecides(s: State, a: ReleaseStep, t: Tid)
    requires ReleaseStepEnabled(s, a)
    ensures DecisionFrom(s, Release(a), ReleaseStepApply(s, a), t)
  {
  }

  lemma UpkeepDecides(s: State, a: UpkeepStep, t: Tid)
    requires UpkeepStepEnabled(s, a)
    ensures DecisionFrom(s, Upkeep(a), UpkeepStepApply(s, a), t)
  {
  }

  lemma StepDecides(s: State, a: Step, t: Tid)
    requires Enabled(s, a)
    ensures DecisionFrom(s, a, Apply(s, a), t)
  {
    match a
    case Open(b) => OpenDecides(s, b, t);
    case Acquire(b) => AcquireDecides(s, b, t);
    case Startup(b) => StartupDecides(s, b, t);
    case Call(b) => CallDecides(s, b, t);
    case Release(b) => ReleaseDecides(s, b, t);
    case Upkeep(b) => UpkeepDecides(s, b, t);
    case Shut(b) =>
  }

  lemma RunStepDecides(states: seq<State>, steps: seq<Step>, i: nat, t: Tid)
    requires Run(states, steps) && i < |steps|
    ensures DecisionFrom(states[i], steps[i], states[i + 1], t)
  {
    assert NextAt(states, steps, i);
    StepDecides(states[i], steps[i], t);
  }

  /** The reply settled at `h` makes call `c` of task `t` pin or unpin its lease. */
  ghost predicate SettledAs(s: State, a: Step, t: Tid, c: Call, pinned: bool) {
    && a.Call? && a.call.DoSettleCall? && a.call.t == t && t in s.tasks && s.tasks[t].Calling? && s.tasks[t].c == c
    && c.kind.Ordinary?
    && (if pinned then StartRetains(c.kind.tool, a.call.reply) else StopSucceeds(c.kind.tool, a.call.reply))
  }

  /** Every pin decision stems from a reply to that very call. */
  lemma {:induction false} DecisionSettled(states: seq<State>, steps: seq<Step>, j: nat, t: Tid) returns (h: nat)
    requires Run(states, steps) && j < |states|
    requires t in states[j].tasks && states[j].tasks[t].Calling? && states[j].tasks[t].call.Pinning?
    ensures h < j && SettledAs(states[h], steps[h], t, states[j].tasks[t].c, states[j].tasks[t].call.pinned)
  {
    RunStepDecides(states, steps, j - 1, t);
    if t in states[j - 1].tasks && states[j - 1].tasks[t] == states[j].tasks[t] {
      h := DecisionSettled(states, steps, j - 1, t);
    } else {
      h := j - 1;
    }
  }

  /** A pinned lease was pinned by a step of the run and stayed installed and
      pinned, with no stop applied to it, ever since. */
  lemma {:induction false} PinnedSince(states: seq<State>, steps: seq<Step>, j: nat, d: DbId) returns (i: nat)
    requires Run(states, steps) && j < |states| && Pinned(states[j], d)
    ensures i < j && Applies(states[i], steps[i], d, true)
    ensures states[i].tasks[steps[i].call.t].c.lease == states[j].dbs[d].lease.value.lease
    ensures forall k | i < k <= j :: Pinned(states[k], d) && states[k].dbs[d].lease == states[j].dbs[d].lease
    ensures forall k | i < k < j :: !Applies(states[k], steps[k], d, false)
  {
    RunStepPins(states, steps, j - 1, d);
    if Applies(states[j - 1], steps[j - 1], d, true) {
      i := j - 1;
      RunKeeps(states, steps, i);
      SameLeaseIsTheLease(states[i], steps[i].call.t);
    } else {
      i := PinnedSince(states, steps, j - 1, d);
    }
  }

  /** Debug pin ownership: a pinned lease is the exact lease whose debugger start
      reported a retained session, and no successful stop was applied to it later. */
  lemma PinOwnership(states: seq<State>, steps: seq<Step>, j: nat, d: DbId) returns (h: nat, i: nat)
    requires Run(states, steps) && j < |states| && Pinned(states[j], d)
    ensures h < i < j && Applies(states[i], steps[i], d, true)
    ensures var c := states[i].tasks[steps[i].call.t].c;
            && SettledAs(states[h], steps[h], steps[i].call.t, c, true)
            && states[j].dbs[d].lease == Some(Lease(c.worker, c.lease, c.generation, true))
    ensures forall k | i < k < j :: !Applies(states[k], steps[k], d, false)
  {
    i := PinnedSince(states, steps, j, d);
    RunKeeps(states, steps, i);
    SameLeaseIsTheLease(states[i], steps[i].call.t);
    h := DecisionSettled(states, steps, i, steps[i].call.t);
    RunStepPins(states, steps, i, d);
  }

  /** What the caller of a debugger start or stop is told once its decision was processed. */
  function PinReply(s: State, t: Tid): Option<ToolError>
    requires t in s.tasks && s.tasks[t].Calling? && s.tasks[t].call.Pinning?
  {
    if s.tasks[t].call.pinned && !SameLease(s, s.tasks[t].c) then Some(DebuggerSessionLost) else None
  }

  /** A retained start is reported as a success exactly when its lease is pinned
      afterwards; a late completion changes no binding at all. */
  lemma RetainedStartReported(s: State, t: Tid)
    requires Inv(s) && CanPin(s, t) && s.tasks[t].call.pinned
    ensures var c, s1 := s.tasks[t].c, Pin(s, t);
            && (PinReply(s, t) == None <==> (c.db in s1.dbs && s1.dbs[c.db].lease == Some(Lease(c.worker, c.lease, c.generation, true))))
            && (PinReply(s, t) != None ==> s1.dbs == s.dbs)
  {
    if SameLease(s, s.tasks[t].c) { SameLeaseIsTheLease(s, t); }
  }

  // ---- How a pin decision ends ----

  /** A decision stays until it is applied or its future is dropped. */
  ghost predicate DecisionKept(s: State, a: Step, s1: State, t: Tid) {
    t in s.tasks && s.tasks[t].Calling? && s.tasks[t].call.Pinning? ==>
      || (t in s1.tasks && s1.tasks[t] == s.tasks[t])
      || a == Step.Call(DoPin(t)) || a == Upkeep(DoDrop(t))
  }

  lemma OpenDecisionKept(s: State, a: OpenStep, t: Tid)
    requires OpenStepEnabled(s, a)
    ensures DecisionKept(s, Step.Open(a), OpenStepApply(s, a), t)
  {
  }

  lemma AcquireDecisionKept(s: State, a: AcquireStep, t: Tid)
    requires AcquireStepEnabled(s, a)
    ensures DecisionKept(s, Acquire(a), AcquireStepApply(s, a), t)
  {
  }

  lemma StartupDecisionKept(s: State, a: StartupStep, t: Tid)
    requires Inv(s) && StartupStepEnabled(s, a)
    ensures DecisionKept(s, Startup(a), StartupStepApply(s, a), t)
  {
    match a
    case DoGiveUp(w) => assert ReservationAt(s.pool.reserved, s.slots, s.tasks, w);
    case _ =>
  }

  lemma CallDecisionKept(s: State, a: CallStep, t: Tid)
    requires CallStepEnabled(s, a)
    ensures DecisionKept(s, Step.Call(a), CallStepApply(s, a), t)
  {
  }

  lemma ReleaseDecisionKept(s: State, a: ReleaseStep, t: Tid)
    requires ReleaseStepEnabled(s, a)
    ensures DecisionKept(s, Release(a), ReleaseStepApply(s, a), t)
  {
  }

  lemma UpkeepDecisionKept(s: State, a: UpkeepStep, t: Tid)
    requires UpkeepStepEnabled(s, a)
    ensures DecisionKept(s, Upkeep(a), UpkeepStepApply(s, a), t)
  {
  }

  lemma StepDecisionKept(s: State, a: Step, t: Tid)
    requires Inv(s) && Enabled(s, a)
    ensures DecisionKept(s, a, Apply(s, a), t)
  {
    match a
    case Open(b) => OpenDecisionKept(s, b, t);
    case Acquire(b) => AcquireDecisionKept(s, b, t);
    case Startup(b) => StartupDecisionKept(s, b, t);
    case Call(b) => CallDecisionKept(s, b, t);
    case Release(b) => ReleaseDecisionKept(s, b, t);
    case Upkeep(b) => UpkeepDecisionKept(s, b, t);
    case Shut(b) =>
  }

  /** How the report of a retained start can end. */
  datatype Ending = LeasePinned | SessionLost | CallerDropped

  ghost predicate EndsAs(s: State, a: Step, s1: State, t: Tid, e: Ending)
    requires Decides(s, t, true)
  {
    var c := s.tasks[t].c;
    match e
    case LeasePinned =>
      && a == Step.Call(DoPin(t)) && PinReply(s, t) == None
      && c.db in s1.dbs && s1.dbs[c.db].lease == Some(Lease(c.worker, c.lease, c.generation, true))
    case SessionLost => a == Step.Call(DoPin(t)) && PinReply(s, t) == Some(DebuggerSessionLost) && s1.dbs == s.dbs
    case CallerDropped => a == Upkeep(DoDrop(t)) && s1 == s.(tasks := s.tasks - {t})
  }

  /** A settled retained start ends in one of three ways: its own lease is pinned and
      the start is reported; its lease is gone and the session is reported as lost; or
      the caller's future is dropped first, which pins nothing and schedules nothing. */
  lemma RetainedStartEnds(states: seq<State>, steps: seq<Step>, i: nat, t: Tid) returns (e: Ending)
    requires Run(states, steps) && i < |steps| && Decides(states[i], t, true)
    requires !(t in states[i + 1].tasks && states[i + 1].tasks[t] == states[i].tasks[t])
    ensures EndsAs(states[i], steps[i], states[i + 1], t, e)
  {
    RunKeeps(states, steps, i);
    RunStepDecisionKept(states, steps, i, t);
    if steps[i] == Upkeep(DoDrop(t)) {
      DropEffect(states, steps, i, t);
      e := CallerDropped;
    } else {
      PinEffect(states, steps, i, t);
      RetainedStartReported(states[i], t);
      e := if PinReply(states[i], t) == None then LeasePinned else SessionLost;
    }
  }

  lemma RunStepDecisionKept(states: seq<State>, steps: seq<Step>, i: nat, t: Tid)
    requires Run(states, steps) && i < |steps|
    ensures DecisionKept(states[i], steps[i], states[i + 1], t)
  {
    RunKeeps(states, steps, i);
    assert NextAt(states, steps, i);
    StepDecisionKept(states[i], steps[i], t);
  }

  lemma DropEffect(states: seq<State>, steps: seq<Step>, i: nat, t: Tid)
    requires Run(states, steps) && i < |steps| && steps[i] == Upkeep(DoDrop(t)) && Decides(states[i], t, true)
    ensures states[i + 1] == states[i].(tasks := states[i].tasks - {t})
  {
    assert NextAt(states, steps, i);
  }

  lemma PinEffect(states: seq<State>, steps: seq<Step>, i: nat, t: Tid)
    requires Run(states, steps) && i < |steps| && steps[i] == Step.Call(DoPin(t))
    ensures CanPin(states[i], t) && states[i + 1] == Pin(states[i], t)
  {
    assert NextAt(states, steps, i);
  }
}
