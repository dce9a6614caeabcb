/** Opening a database is a transaction on the slot: an undispatched call changes
    nothing, a settled one commits or rolls back, and the loss of the worker in
    between hands exactly the dispatched intent to retirement. */
module PoolOpen {
  import opened Wrappers
  import opened PoolState
  import opened PoolInvariant
  import opened PoolRun
  import opened PoolLifecycle

  // ---- What a retirement takes ----

  /** A slot that dies in the step hands over its path and artifacts as they were. */
  ghost predicate Hands(s: State, s1: State, w: Wid) {
    w in s.slots && s.slots[w].state != Dead && w in s1.slots && s1.slots[w].state == Dead ==>
      w in s1.losses.handed && s1.losses.handed[w] == DeadWorker(s.slots[w].path, s.slots[w].artifacts)
  }

  lemma OpenHands(s: State, a: OpenStep, w: Wid)
    requires OpenStepEnabled(s, a)
    ensures Hands(s, OpenStepApply(s, a), w)
  {
  }

  lemma AcquireHands(s: State, a: AcquireStep, w: Wid)
    requires AcquireStepEnabled(s, a)
    ensures Hands(s, AcquireStepApply(s, a), w)
  {
  }

  lemma StartupHands(s: State, a: StartupStep, w: Wid)
    requires StartupStepEnabled(s, a)
    ensures Hands(s, StartupStepApply(s, a), w)
  {
  }

  lemma CallHands(s: State, a: CallStep, w: Wid)
    requires CallStepEnabled(s, a)
    ensures Hands(s, CallStepApply(s, a), w)
  {
  }

  lemma ReleaseHands(s: State, a: ReleaseStep, w: Wid)
    requires ReleaseStepEnabled(s, a)
    ensures Hands(s, ReleaseStepApply(s, a), w)
  {
  }

  lemma UpkeepHands(s: State, a: UpkeepStep, w: Wid)
    requires UpkeepStepEnabled(s, a)
    ensures Hands(s, UpkeepStepApply(s, a), w)
  {
  }

  lemma ShutHands(s: State, a: ShutStep, w: Wid)
    requires ShutStepEnabled(s, a)
    ensures Hands(s, ShutStepApply(s, a), w)
  {
  }

  lemma StepHands(s: State, a: Step, w: Wid)
    requires Enabled(s, a)
    ensures Hands(s, Apply(s, a), w)
  {
    match a
    case Open(b) => OpenHands(s, b, w);
    case Acquire(b) => AcquireHands(s, b, w);
    case Startup(b) => StartupHands(s, b, w);
    case Call(b) => CallHands(s, b, w);
    case Release(b) => ReleaseHands(s, b, w);
    case Upkeep(b) => UpkeepHands(s, b, w);
    case Shut(b) => ShutHands(s, b, w);
  }

  /** A worker is retired at most once, and retirement takes what the slot held then. */
  lemma RetiredOnce(states: seq<State>, steps: seq<Step>, i: nat, j: nat, w: Wid)
    requires Run(states, steps) && i < j < |states| && w in states[i].slots && states[i].slots[w].state != Dead
    requires w in states[i + 1].slots && states[i + 1].slots[w].state == Dead
    ensures w !in states[i].losses.handed
    ensures w in states[j].losses.handed
    ensures states[j].losses.handed[w] == DeadWorker(states[i].slots[w].path, states[i].slots[w].artifacts)
    ensures w in states[j].slots && states[j].slots[w] == Slot(Dead, false, None, None)
  {
    RunKeeps(states, steps, i);
    assert LossAt(states[i].slots, states[i].losses, w);
    RunStepHands(states, steps, i, w);
    RunGrows(states, steps, i + 1, j);
    RunKeeps(states, steps, j);
    assert LossAt(states[j].slots, states[j].losses, w);
  }

  lemma RunStepHands(states: seq<State>, steps: seq<Step>, i: nat, w: Wid)
    requires Run(states, steps) && i < |steps|
    ensures Hands(states[i], states[i + 1], w)
  {
    assert NextAt(states, steps, i);
    StepHands(states[i], steps[i], w);
  }

  // ---- One open, from its dispatch to its settlement ----

  /** At step `i` task `t` dispatches an open that is still the same running call at state `j`. */
  ghost predicate InFlight(states: seq<State>, steps: seq<Step>, i: nat, j: nat, t: Tid) {
    && Run(states, steps) && i < j < |states| && steps[i] == Step.Call(DoSend(t, true))
    && CanSend(states[i], t) && states[i].tasks[t].c.kind.Open?
    && t in states[i + 1].tasks
    && (forall k | i < k <= j :: t in states[k].tasks && states[k].tasks[t] == states[i + 1].tasks[t])
  }

  lemma DispatchRecords(states: seq<State>, steps: seq<Step>, i: nat, t: Tid)
    requires Run(states, steps) && i < |steps| && steps[i] == Step.Call(DoSend(t, true))
    requires CanSend(states[i], t) && states[i].tasks[t].c.kind.Open?
    ensures var c := states[i].tasks[t].c;
            && t in states[i + 1].tasks && c.worker in states[i + 1].slots && c.worker in states[i].slots
            && states[i + 1].tasks[t] == Calling(c, Running(true, states[i].slots[c.worker].path))
            && states[i + 1].slots[c.worker] ==
                 states[i].slots[c.worker].(path := Some(c.kind.target), artifacts := c.kind.snapshot)
            && states[i + 1].slots[c.worker].state == Leased(c.session, c.lease)
  {
    assert NextAt(states, steps, i);
  }

  /** The slot of an unsettled open carries its intent, or is dead and handed
      exactly that intent to its retirement. */
  ghost predicate Intent(s: State, c: Call) {
    && c.kind.Open? && c.worker in s.slots
    && (if s.slots[c.worker].state == Dead
        then c.worker in s.losses.handed && s.losses.handed[c.worker] == DeadWorker(Some(c.kind.target), c.kind.snapshot)
        else && s.slots[c.worker].state == Leased(c.session, c.lease) && s.slots[c.worker].path == Some(c.kind.target)
             && s.slots[c.worker].artifacts == c.kind.snapshot)
  }

  lemma IntentStep(states: seq<State>, steps: seq<Step>, k: nat, t: Tid, c: Call)
    requires Run(states, steps) && k < |steps| && Intent(states[k], c)
    requires t in states[k + 1].tasks && states[k + 1].tasks[t].Calling? && states[k + 1].tasks[t].c == c
    requires states[k + 1].tasks[t].call.Running? && states[k + 1].tasks[t].call.sent
    ensures Intent(states[k + 1], c)
  {
    RunStepHands(states, steps, k, c.worker);
    RunGrows(states, steps, k, k + 1);
    RunKeeps(states, steps, k + 1);
    assert SlotAt(states[k + 1].slots, states[k + 1].tasks, t);
  }

  lemma {:induction false} IntentIsKept(states: seq<State>, steps: seq<Step>, i: nat, j: nat, t: Tid)
    requires InFlight(states, steps, i, j, t)
    ensures Intent(states[j], states[i].tasks[t].c)
    decreases j
  {
    DispatchRecords(states, steps, i, t);
    if j > i + 1 {
      IntentIsKept(states, steps, i, j - 1, t);
      IntentStep(states, steps, j - 1, t, states[i].tasks[t].c);
    }
  }

  /** Open is transactional: a settled open leaves the slot leased as it was, with
      no pending artifacts; a failed one restores the path from before the dispatch, a
      successful one commits the reported path. Nothing else changes, and the
      settlement never finds the slot under another lease. */
  lemma OpenIsTransactional(states: seq<State>, steps: seq<Step>, i: nat, j: nat, t: Tid, reply: Reply)
    requires InFlight(states, steps, i, j, t) && j < |steps| && steps[j] == Step.Call(DoSettleOpen(t, reply))
    ensures var c := states[i].tasks[t].c;
            && c.worker in states[i].slots
            && states[j + 1].slots == states[j].slots[c.worker := Slot(
                 Leased(c.session, c.lease), true,
                 (if !reply.Success? then states[i].slots[c.worker].path
                  else if reply.parsed then Some(reply.path) else Some(c.kind.target)),
                 None)]
            && states[j + 1] == states[j].(slots := states[j + 1].slots, tasks := states[j + 1].tasks)
            && (t in states[j + 1].tasks ==> states[j + 1].tasks[t] == Calling(c, Failed(ReplyError(reply))))
  {
    DispatchRecords(states, steps, i, t);
    IntentIsKept(states, steps, i, j, t);
    SettleEffect(states, steps, j, t, reply);
  }

  lemma SettleEffect(states: seq<State>, steps: seq<Step>, j: nat, t: Tid, reply: Reply)
    requires Run(states, steps) && j < |steps| && steps[j] == Step.Call(DoSettleOpen(t, reply))
    ensures CanSettleOpen(states[j], t, reply) && states[j + 1] == SettleOpen(states[j], t, reply)
  {
    assert NextAt(states, steps, j);
  }

  // ---- Calls that never reach the worker ----

  /** The step is taken by a call of task `t` that has not been dispatched and is not dispatched by it. */
  ghost predicate Undispatched(s: State, a: Step, t: Tid) {
    && (t in s.tasks ==> s.tasks[t].Calling? && (s.tasks[t].call.Queued? || s.tasks[t].call.Locked?))
    && (|| (a.Call? && a.call.DoCallStart? && a.call.t == t)
        || (a.Open? && a.open.DoOpenReuse? && a.open.t == t)
        || (a.Call? && (a.call.DoLockCall? || a.call.DoRejectCall? || a.call.DoNeverDispatch?) && a.call.t == t)
        || (a.Upkeep? && a.upkeep == DoDrop(t)))
  }

  /** A call that is never dispatched is a stutter on slots, paths, artifacts,
      bindings, the pool and pending retirements, whatever point it ends at. */
  lemma UndispatchedStutters(s: State, a: Step, t: Tid)
    requires Enabled(s, a) && Undispatched(s, a, t)
    ensures Apply(s, a) == s.(tasks := Apply(s, a).tasks) && Apply(s, a).tasks - {t} == s.tasks - {t}
  {
  }
}
