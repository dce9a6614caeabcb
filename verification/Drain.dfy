/** Save-first shutdown of the stdio transport: `receive`, `send`, `drain`, `arm`
    and `release` over two cancellation tokens and a request tracker. */
module Drain {

  type Rid = nat

  datatype Message = Request(r: Rid) | Other

  /** `after_terminal_event`. */
  datatype Terminal =
    | Cancelling          // about to cancel `closed`
    | Loading             // about to read `armed`
    | Waiting             // armed: waiting for `saved`
    | Ended               // the caller sees the end

  datatype Receive =
    | Idle
    | Polling             // `closed` was not cancelled when the poll began
    | Got(message: Message)
    | Guarded(message: Message)   // a tracker token is held
    | Cleared(message: Message)   // ... and `closed` was not cancelled after that
    | Ending(at: Terminal)

  datatype Drainer = Running | Closing | Draining | Returned

  datatype State = State(
    armed: bool,
    closed: bool,
    saved: bool,
    trackerClosed: bool,
    receive: Receive,
    sends: map<nat, Terminal>,    // failed writes in after_terminal_event
    unsettled: set<Rid>,          // requests handed to rmcp, each with its token
    drainer: Drainer)

  datatype Step =
    | Arm
    | Release
    | Poll
    | PollClosed
    | Take(message: Message)
    | EndOfInput
    | TakeToken
    | CheckOpen
    | CheckClosed
    | HandOver
    | Settle(r: Rid)
    | WriteFails(t: nat)
    | Terminate                   // one step of receive's after_terminal_event
    | TerminateSend(t: nat)
    | Again
    | DrainClose
    | DrainTracker
    | DrainDone

  /** Tracker tokens in existence. */
  predicate NoTokens(s: State) {
    s.unsettled == {} && !s.receive.Guarded? && !s.receive.Cleared?
  }

  predicate Moves(s: State, at: Terminal) {
    at.Cancelling? || at.Loading? || (at.Waiting? && s.saved)
  }

  function Move(s: State, at: Terminal): Terminal {
    match at
    case Cancelling => Loading
    case Loading => if s.armed then Waiting else Ended
    case _ => Ended
  }

  predicate Enabled(s: State, a: Step) {
    match a
    case Arm => true
    case Release => true
    case Poll => s.receive.Idle? && !s.closed
    case PollClosed => s.receive.Idle? && s.closed
    case Take(m) => s.receive.Polling? && (m.Request? ==> m.r !in s.unsettled)
    case EndOfInput => s.receive.Polling?
    case TakeToken => s.receive.Got?
    case CheckOpen => s.receive.Guarded? && !s.closed
    case CheckClosed => s.receive.Guarded? && s.closed
    case HandOver => s.receive.Cleared?
    case Settle(r) => r in s.unsettled
    case WriteFails(t) => t !in s.sends
    case Terminate => s.receive.Ending? && Moves(s, s.receive.at)
    case TerminateSend(t) => t in s.sends && Moves(s, s.sends[t])
    case Again => s.receive == Ending(Ended)
    case DrainClose => s.drainer.Running?
    case DrainTracker => s.drainer.Closing?
    case DrainDone => s.drainer.Draining? && s.trackerClosed && NoTokens(s)
  }

  function Apply(s: State, a: Step): State
    requires Enabled(s, a)
  {
    match a
    case Arm => s.(armed := true)
    case Release => s.(saved := true)
    case Poll => s.(receive := Polling)
    case PollClosed => s.(receive := Ending(Cancelling))
    case Take(m) => s.(receive := Got(m))
    case EndOfInput => s.(receive := Ending(Cancelling))
    case TakeToken => s.(receive := Guarded(s.receive.message))
    case CheckOpen => s.(receive := Cleared(s.receive.message))
    case CheckClosed => s.(receive := Ending(Cancelling))
    case HandOver =>
      s.(receive := Idle,
         unsettled := match s.receive.message case Request(r) => s.unsettled + {r} case Other => s.unsettled)
    case Settle(r) => s.(unsettled := s.unsettled - {r})
    case WriteFails(t) => s.(sends := s.sends[t := Cancelling])
    case Terminate =>
      s.(closed := s.closed || s.receive.at.Cancelling?, receive := Ending(Move(s, s.receive.at)))
    case TerminateSend(t) =>
      s.(closed := s.closed || s.sends[t].Cancelling?, sends := s.sends[t := Move(s, s.sends[t])])
    case Again => s.(receive := Idle)
    case DrainClose => s.(closed := true, drainer := Closing)
    case DrainTracker => s.(trackerClosed := true, drainer := Draining)
    case DrainDone => s.(drainer := Returned)
  }

  ghost predicate Inv(s: State) {
    && (!s.drainer.Running? ==> s.closed)
    && (s.drainer.Returned? ==> s.unsettled == {} && !s.receive.Cleared?)
    && (s.receive.Ending? && !s.receive.at.Cancelling? ==> s.closed)
    && (forall t :: t in s.sends && !s.sends[t].Cancelling? ==> s.closed)
  }

  ghost predicate Init(s: State) {
    s == State(false, false, false, false, Idle, map[], {}, Running)
  }

  ghost predicate NextAt(states: seq<State>, steps: seq<Step>, i: int) {
    0 <= i < |steps| && i + 1 < |states| ==> Enabled(states[i], steps[i]) && states[i + 1] == Apply(states[i], steps[i])
  }

  ghost predicate Run(states: seq<State>, steps: seq<Step>) {
    |states| == |steps| + 1 && Init(states[0]) && forall i {:trigger NextAt(states, steps, i)} :: NextAt(states, steps, i)
  }

  lemma StepKeeps(s: State, a: Step)
    requires Inv(s) && Enabled(s, a)
    ensures Inv(Apply(s, a))
  {
  }

  lemma {:induction false} RunKeeps(states: seq<State>, steps: seq<Step>, i: nat)
    requires Run(states, steps) && i < |states|
    ensures Inv(states[i])
  {
    if i > 0 {
      RunKeeps(states, steps, i - 1);
      assert NextAt(states, steps, i - 1);
      StepKeeps(states[i - 1], steps[i - 1]);
    }
  }

  lemma {:induction false} ReturnedForGood(states: seq<State>, steps: seq<Step>, i: nat, j: nat)
    requires Run(states, steps) && i <= j < |states| && states[i].drainer.Returned?
    ensures states[j].drainer.Returned?
    decreases j
  {
    if i < j {
      ReturnedForGood(states, steps, i, j - 1);
      assert NextAt(states, steps, j - 1);
    }
  }

  /** Once `drain` has returned, no request handed to rmcp is unsettled and no
      message is handed over any more, for the rest of the run. */
  lemma DrainIsFinal(states: seq<State>, steps: seq<Step>, i: nat, j: nat)
    requires Run(states, steps) && i <= j < |states| && states[i].drainer.Returned?
    ensures states[j].unsettled == {}
    ensures j < |steps| ==> !steps[j].HandOver?
  {
    ReturnedForGood(states, steps, i, j);
    RunKeeps(states, steps, j);
    if j < |steps| { assert NextAt(states, steps, j); }
  }

  /** A request is unsettled from its handover until it is settled. */
  lemma {:induction false} UnsettledUntilSettled(states: seq<State>, steps: seq<Step>, i: nat, j: nat, r: Rid)
    requires Run(states, steps) && i < j < |states| && steps[i] == HandOver && states[i].receive == Cleared(Request(r))
    requires forall k | i < k < j :: steps[k] != Settle(r)
    ensures r in states[j].unsettled
    decreases j
  {
    assert NextAt(states, steps, j - 1);
    if i + 1 < j { UnsettledUntilSettled(states, steps, i, j - 1, r); }
  }

  /** Whatever was handed over before `drain` returned was settled before that. */
  lemma DrainWaits(states: seq<State>, steps: seq<Step>, i: nat, j: nat, r: Rid)
    requires Run(states, steps) && i < j < |states| && steps[i] == HandOver && states[i].receive == Cleared(Request(r))
    requires states[j].drainer.Returned?
    ensures exists k :: i < k < j && steps[k] == Settle(r)
  {
    DrainIsFinal(states, steps, j, j);
    if forall k | i < k < j :: steps[k] != Settle(r) { UnsettledUntilSettled(states, steps, i, j, r); }
  }

  // ---- The end of input after arming ----

  /** No terminal event has been let through by an `armed` flag that was not set yet. */
  ghost predicate NotYetEnded(s: State) {
    s.receive != Ending(Ended) && forall t :: t in s.sends ==> !s.sends[t].Ended?
  }

  /** Nobody sees the end unless the database shutdown was released. */
  ghost predicate EndsSaved(s: State) {
    && (s.receive == Ending(Ended) ==> s.saved)
    && (forall t :: t in s.sends && s.sends[t].Ended? ==> s.saved)
  }

  /** Arming and releasing are remembered. */
  lemma {:induction false} ArmedForGood(states: seq<State>, steps: seq<Step>, i: nat, j: nat)
    requires Run(states, steps) && i < j < |states|
    ensures steps[i] == Arm ==> states[j].armed
    ensures steps[i] == Release ==> states[j].saved
    decreases j
  {
    assert NextAt(states, steps, j - 1);
    if i + 1 < j { ArmedForGood(states, steps, i, j - 1); }
  }

  lemma EndStep(s: State, a: Step)
    requires s.armed && EndsSaved(s) && Enabled(s, a)
    ensures Apply(s, a).armed && EndsSaved(Apply(s, a))
  {
  }

  /** Once armed before any terminal event got through, every later end of input
      or write failure is observed only after `release`. */
  lemma {:induction false} EndOnlyAfterRelease(states: seq<State>, steps: seq<Step>, i: nat, j: nat)
    requires Run(states, steps) && i <= j < |states| && states[i].armed && NotYetEnded(states[i])
    ensures states[j].armed && EndsSaved(states[j])
    decreases j
  {
    if i < j {
      EndOnlyAfterRelease(states, steps, i, j - 1);
      assert NextAt(states, steps, j - 1);
      EndStep(states[j - 1], steps[j - 1]);
    }
  }
}
