/** The workspace registry and its reaper, with one step per atomic access: the
    registry mutex covers lookup and counter increment, but timestamps and
    decrements happen outside it, between any two reads of the reaper. */
module Registry {

  type Key = string
  type Eid = nat
  type Gid = nat

  datatype Entry = Entry(lastUsed: nat, active: nat, pins: nat, legacy: bool, lease: bool)

  datatype GuardStage =
    | Raised     // counted, acquisition not yet stamped
    | Held
    | Dropping   // release stamped, not yet uncounted

  /** A live WorkspaceLease, or WorkspacePin when `pin`. */
  datatype Guard = Guard(entry: Eid, pin: bool, stage: GuardStage)

  datatype Reason = Idle | Terminal

  /** How far the re-check of one entry has come. */
  datatype Check = Looked | NoCalls | NoPins | Expired
  {
    predicate PastCalls() { !Looked? }
    predicate PastPins() { NoPins? || Expired? }
  }

  datatype Reaper = Resting | Taking(key: Key, e: Eid, reason: Reason, check: Check)

  datatype State = State(
    timeout: nat,
    now: nat,
    entries: map<Key, Eid>,
    objects: map<Eid, Entry>,        // every entry ever created
    guards: map<Gid, Guard>,
    used: set<Key>,
    reaper: Reaper)                  // holds the registry mutex while taking

  datatype Step =
    | Tick
    | Allocate(k: Key, e: Eid, g: Gid)
    | BindLegacy(k: Key, e: Eid)
    | Acquire(k: Key, g: Gid, pin: bool)
    | Touch(g: Gid)
    | DropTouch(g: Gid)
    | DropCount(g: Gid)
    | Close(k: Key)
    | InstallLease(e: Eid)
    | ClearLease(e: Eid)
    | Look(k: Key, reason: Reason)
    | SeeCalls
    | SeePins
    | SeePolicy
    | Take
    | Skip

  predicate Free(s: State) { s.reaper.Resting? }

  function GuardsOf(guards: map<Gid, Guard>, e: Eid, pin: bool): set<Gid> {
    set g | g in guards && guards[g].entry == e && guards[g].pin == pin
  }

  predicate Guarded(s: State, e: Eid) {
    exists g :: g in s.guards && s.guards[g].entry == e
  }

  predicate Checking(s: State, c: Check) {
    s.reaper.Taking? && s.reaper.check == c && s.reaper.e in s.objects
  }

  /** The policy read of the re-check. */
  predicate PolicyHolds(s: State, e: Eid, reason: Reason)
    requires e in s.objects
  {
    match reason
    case Idle => s.timeout != 0 && s.now >= s.objects[e].lastUsed + s.timeout
    case Terminal => !s.objects[e].lease
  }

  ghost predicate Enabled(s: State, a: Step) {
    match a
    case Tick => true
    case Allocate(k, e, g) => Free(s) && k !in s.used && e !in s.objects && g !in s.guards
    case BindLegacy(k, e) => Free(s) && k !in s.used && e !in s.objects
    case Acquire(k, g, _) => Free(s) && k in s.entries && s.entries[k] in s.objects && g !in s.guards
    case Touch(g) => g in s.guards && s.guards[g].stage.Raised? && s.guards[g].entry in s.objects
    case DropTouch(g) => g in s.guards && s.guards[g].stage.Held? && s.guards[g].entry in s.objects
    case DropCount(g) =>
      && g in s.guards && s.guards[g].stage.Dropping? && s.guards[g].entry in s.objects
      && (if s.guards[g].pin then s.objects[s.guards[g].entry].pins > 0 else s.objects[s.guards[g].entry].active > 0)
    case Close(k) => Free(s) && k in s.entries
    case InstallLease(e) => e in s.objects
    case ClearLease(e) => e in s.objects
    case Look(k, _) => Free(s) && k in s.entries && s.entries[k] in s.objects && !s.objects[s.entries[k]].legacy
    case SeeCalls => Checking(s, Looked) && s.objects[s.reaper.e].active == 0
    case SeePins => Checking(s, NoCalls) && s.objects[s.reaper.e].pins == 0
    case SeePolicy => Checking(s, NoPins) && PolicyHolds(s, s.reaper.e, s.reaper.reason)
    case Take => Checking(s, Expired)
    case Skip => s.reaper.Taking?
  }

  function Stamp(s: State, g: Gid, stage: GuardStage): State
    requires g in s.guards && s.guards[g].entry in s.objects
  {
    var e := s.guards[g].entry;
    s.(objects := s.objects[e := s.objects[e].(lastUsed := s.now)],
       guards := s.guards[g := s.guards[g].(stage := stage)])
  }

  function CountUp(entry: Entry, pin: bool): Entry {
    if pin then entry.(pins := entry.pins + 1) else entry.(active := entry.active + 1)
  }

  function CountDown(entry: Entry, pin: bool): Entry
    requires if pin then entry.pins > 0 else entry.active > 0
  {
    if pin then entry.(pins := entry.pins - 1) else entry.(active := entry.active - 1)
  }

  ghost function Apply(s: State, a: Step): State
    requires Enabled(s, a)
  {
    match a
    case Tick => s.(now := s.now + 1)
    case Allocate(k, e, g) =>
      s.(entries := s.entries[k := e], objects := s.objects[e := Entry(s.now, 1, 0, false, false)],
         guards := s.guards[g := Guard(e, false, Held)], used := s.used + {k})
    case BindLegacy(k, e) =>
      s.(entries := s.entries[k := e], objects := s.objects[e := Entry(s.now, 0, 0, true, false)], used := s.used + {k})
    case Acquire(k, g, pin) =>
      var e := s.entries[k];
      s.(objects := s.objects[e := CountUp(s.objects[e], pin)], guards := s.guards[g := Guard(e, pin, Raised)])
    case Touch(g) => Stamp(s, g, Held)
    case DropTouch(g) => Stamp(s, g, Dropping)
    case DropCount(g) =>
      var e := s.guards[g].entry;
      s.(objects := s.objects[e := CountDown(s.objects[e], s.guards[g].pin)], guards := s.guards - {g})
    case Close(k) => s.(entries := s.entries - {k})
    case InstallLease(e) => s.(objects := s.objects[e := s.objects[e].(lease := true)])
    case ClearLease(e) => s.(objects := s.objects[e := s.objects[e].(lease := false)])
    case Look(k, reason) => s.(reaper := Taking(k, s.entries[k], reason, Looked))
    case SeeCalls => s.(reaper := s.reaper.(check := NoCalls))
    case SeePins => s.(reaper := s.reaper.(check := NoPins))
    case SeePolicy => s.(reaper := s.reaper.(check := Expired))
    case Take => s.(entries := s.entries - {s.reaper.key}, reaper := Resting)
    case Skip => s.(reaper := Resting)
  }

  // ---- The invariant ----

  ghost predicate CountsAt(objects: map<Eid, Entry>, guards: map<Gid, Guard>, e: Eid) {
    e in objects ==>
      objects[e].active == |GuardsOf(guards, e, false)| && objects[e].pins == |GuardsOf(guards, e, true)|
  }

  ghost predicate GuardAt(objects: map<Eid, Entry>, guards: map<Gid, Guard>, g: Gid) {
    g in guards ==> guards[g].entry in objects
  }

  /** Every counter equals the number of live guards of its kind. */
  ghost predicate Counted(objects: map<Eid, Entry>, guards: map<Gid, Guard>) {
    && (forall e {:trigger CountsAt(objects, guards, e)} :: CountsAt(objects, guards, e))
    && (forall g {:trigger GuardAt(objects, guards, g)} :: GuardAt(objects, guards, g))
  }

  ghost predicate KeyAt(s: State, k: Key) {
    k in s.entries ==> k in s.used && s.entries[k] in s.objects
  }

  /** What the reaper has read about the entry it holds is still true. */
  ghost predicate ReaperOk(s: State) {
    s.reaper.Taking? ==>
      var e := s.reaper.e;
      && s.reaper.key in s.entries && s.entries[s.reaper.key] == e
      && e in s.objects && !s.objects[e].legacy
      && (s.reaper.check.PastCalls() ==> s.objects[e].active == 0)
      && (s.reaper.check.PastPins() ==> s.objects[e].pins == 0)
      && (s.reaper.check.Expired? && s.reaper.reason.Idle? ==> PolicyHolds(s, e, Idle))
  }

  ghost predicate Inv(s: State) {
    && Counted(s.objects, s.guards)
    && (forall k {:trigger KeyAt(s, k)} :: KeyAt(s, k))
    && ReaperOk(s)
  }

  lemma NoGuards(s: State, e: Eid)
    requires Inv(s) && e in s.objects
    ensures Guarded(s, e) <==> s.objects[e].active > 0 || s.objects[e].pins > 0
  {
    assert CountsAt(s.objects, s.guards, e);
    if Guarded(s, e) {
      var g :| g in s.guards && s.guards[g].entry == e;
      assert g in GuardsOf(s.guards, e, s.guards[g].pin);
    } else {
      assert GuardsOf(s.guards, e, false) == {} && GuardsOf(s.guards, e, true) == {};
    }
  }

  function Hits(guard: Guard, e: Eid, pin: bool): nat {
    if guard.entry == e && guard.pin == pin then 1 else 0
  }

  lemma SizeDrop(guards: map<Gid, Guard>, g: Gid, e: Eid, pin: bool)
    requires g in guards
    ensures |GuardsOf(guards - {g}, e, pin)| == |GuardsOf(guards, e, pin)| - Hits(guards[g], e, pin)
  {
    if Hits(guards[g], e, pin) == 1 {
      assert GuardsOf(guards - {g}, e, pin) == GuardsOf(guards, e, pin) - {g};
    } else {
      assert GuardsOf(guards - {g}, e, pin) == GuardsOf(guards, e, pin);
    }
  }

  lemma SizeAdd(guards: map<Gid, Guard>, g: Gid, guard: Guard, e: Eid, pin: bool)
    requires g !in guards
    ensures |GuardsOf(guards[g := guard], e, pin)| == |GuardsOf(guards, e, pin)| + Hits(guard, e, pin)
  {
    assert guards[g := guard] - {g} == guards;
    SizeDrop(guards[g := guard], g, e, pin);
  }

  lemma NoneYet(s: State, e: Eid, pin: bool)
    requires Inv(s) && e !in s.objects
    ensures |GuardsOf(s.guards, e, pin)| == 0
  {
    forall h | h in s.guards ensures s.guards[h].entry != e { assert GuardAt(s.objects, s.guards, h); }
    assert GuardsOf(s.guards, e, pin) == {};
  }

  lemma AddGuard(s: State, g: Gid, guard: Guard, entry: Entry)
    requires Inv(s) && g !in s.guards
    requires var e := guard.entry;
             var was := if e in s.objects then s.objects[e] else Entry(0, 0, 0, false, false);
             entry.active == was.active + Hits(guard, e, false) && entry.pins == was.pins + Hits(guard, e, true)
    ensures Counted(s.objects[guard.entry := entry], s.guards[g := guard])
  {
    var objects, guards := s.objects[guard.entry := entry], s.guards[g := guard];
    forall e ensures CountsAt(objects, guards, e) {
      assert CountsAt(s.objects, s.guards, e);
      if e !in s.objects { NoneYet(s, e, false); NoneYet(s, e, true); }
      SizeAdd(s.guards, g, guard, e, false);
      SizeAdd(s.guards, g, guard, e, true);
    }
    forall h ensures GuardAt(objects, guards, h) { assert GuardAt(s.objects, s.guards, h); }
  }

  lemma DropCountKeeps(s: State, g: Gid)
    requires Inv(s) && Enabled(s, DropCount(g))
    ensures Inv(Apply(s, DropCount(g)))
  {
    var s1 := Apply(s, DropCount(g));
    forall e ensures CountsAt(s1.objects, s1.guards, e) {
      assert CountsAt(s.objects, s.guards, e);
      SizeDrop(s.guards, g, e, false);
      SizeDrop(s.guards, g, e, true);
    }
    forall h ensures GuardAt(s1.objects, s1.guards, h) { assert GuardAt(s.objects, s.guards, h); }
    forall k ensures KeyAt(s1, k) { assert KeyAt(s, k); }
  }

  lemma StampKeeps(s: State, g: Gid, stage: GuardStage)
    requires Inv(s) && g in s.guards && s.guards[g].entry in s.objects
    ensures Inv(Stamp(s, g, stage))
  {
    var s1 := Stamp(s, g, stage);
    NoGuards(s, s.guards[g].entry);
    forall e ensures CountsAt(s1.objects, s1.guards, e) {
      assert CountsAt(s.objects, s.guards, e);
      assert GuardsOf(s1.guards, e, false) == GuardsOf(s.guards, e, false);
      assert GuardsOf(s1.guards, e, true) == GuardsOf(s.guards, e, true);
    }
    forall h ensures GuardAt(s1.objects, s1.guards, h) { assert GuardAt(s.objects, s.guards, h); }
    forall k ensures KeyAt(s1, k) { assert KeyAt(s, k); }
  }

  lemma CreateKeeps(s: State, a: Step)
    requires Inv(s) && Enabled(s, a) && (a.Allocate? || a.BindLegacy? || a.Acquire?)
    ensures Inv(Apply(s, a))
  {
    var s1 := Apply(s, a);
    match a {
      case Allocate(k, e, g) => AddGuard(s, g, Guard(e, false, Held), s1.objects[e]);
      case Acquire(k, g, pin) => AddGuard(s, g, Guard(s.entries[k], pin, Raised), s1.objects[s.entries[k]]);
      case BindLegacy(k, e) =>
        forall h ensures GuardAt(s1.objects, s1.guards, h) { assert GuardAt(s.objects, s.guards, h); }
        forall x ensures CountsAt(s1.objects, s1.guards, x) {
          assert CountsAt(s.objects, s.guards, x);
          if x == e { NoneYet(s, e, false); NoneYet(s, e, true); }
        }
    }
    forall k ensures KeyAt(s1, k) { assert KeyAt(s, k); }
  }

  lemma LeaseKeeps(s: State, e: Eid, lease: bool)
    requires Inv(s) && e in s.objects
    ensures Inv(s.(objects := s.objects[e := s.objects[e].(lease := lease)]))
  {
    var s1 := s.(objects := s.objects[e := s.objects[e].(lease := lease)]);
    forall x ensures CountsAt(s1.objects, s1.guards, x) { assert CountsAt(s.objects, s.guards, x); }
    forall h ensures GuardAt(s1.objects, s1.guards, h) { assert GuardAt(s.objects, s.guards, h); }
    forall k ensures KeyAt(s1, k) { assert KeyAt(s, k); }
  }

  /** Every step keeps the counters equal to the live guards and the reaper's reads valid. */
  lemma StepKeeps(s: State, a: Step)
    requires Inv(s) && Enabled(s, a)
    ensures Inv(Apply(s, a))
  {
    var s1 := Apply(s, a);
    match a {
      case Touch(g) => StampKeeps(s, g, Held);
      case DropTouch(g) => StampKeeps(s, g, Dropping);
      case DropCount(g) => DropCountKeeps(s, g);
      case InstallLease(e) => LeaseKeeps(s, e, true);
      case ClearLease(e) => LeaseKeeps(s, e, false);
      case Allocate(_, _, _) => CreateKeeps(s, a);
      case BindLegacy(_, _) => CreateKeeps(s, a);
      case Acquire(_, _, _) => CreateKeeps(s, a);
      case _ =>
        forall k ensures KeyAt(s1, k) { assert KeyAt(s, k); }
    }
  }

  // ---- Runs ----

  ghost predicate Init(s: State) {
    s.entries == map[] && s.objects == map[] && s.guards == map[] && s.used == {} && s.reaper == Resting
  }

  ghost predicate NextAt(states: seq<State>, steps: seq<Step>, i: int) {
    0 <= i < |steps| && i + 1 < |states| ==> Enabled(states[i], steps[i]) && states[i + 1] == Apply(states[i], steps[i])
  }

  ghost predicate Run(states: seq<State>, steps: seq<Step>) {
    |states| == |steps| + 1 && Init(states[0]) && forall i {:trigger NextAt(states, steps, i)} :: NextAt(states, steps, i)
  }

  lemma {:induction false} RunKeeps(states: seq<State>, steps: seq<Step>, i: nat)
    requires Run(states, steps) && i < |states|
    ensures Inv(states[i])
  {
    if i > 0 {
      RunKeeps(states, steps, i - 1);
      assert NextAt(states, steps, i - 1);
      StepKeeps(states[i - 1], steps[i - 1]);
    }
  }

  /** Counters equal live guards in every reachable state. */
  lemma CountersAreGuards(states: seq<State>, steps: seq<Step>, i: nat, e: Eid)
    requires Run(states, steps) && i < |states| && e in states[i].objects
    ensures states[i].objects[e].active == |GuardsOf(states[i].guards, e, false)|
    ensures states[i].objects[e].pins == |GuardsOf(states[i].guards, e, true)|
  {
    RunKeeps(states, steps, i);
    assert CountsAt(states[i].objects, states[i].guards, e);
  }

  /** Reaper safety: at the moment of removal the entry is no legacy binding, has
      no live guard, and an idle one is past the timeout. */
  lemma ReaperSafety(states: seq<State>, steps: seq<Step>, i: nat)
    requires Run(states, steps) && i < |steps| && steps[i] == Take
    ensures states[i].reaper.Taking? && states[i].reaper.e in states[i].objects
    ensures var s, e := states[i], states[i].reaper.e;
            && !s.objects[e].legacy && !Guarded(s, e)
            && (s.reaper.reason.Idle? ==> s.timeout != 0 && s.now >= s.objects[e].lastUsed + s.timeout)
            && states[i + 1].entries == s.entries - {s.reaper.key} && s.reaper.key in s.entries && s.entries[s.reaper.key] == e
  {
    RunKeeps(states, steps, i);
    assert NextAt(states, steps, i);
    NoGuards(states[i], states[i].reaper.e);
  }

  lemma {:induction false} LegacyStays(states: seq<State>, steps: seq<Step>, i: nat, j: nat, k: Key, e: Eid)
    requires Run(states, steps) && i < j < |states| && steps[i] == BindLegacy(k, e)
    ensures e in states[j].objects && states[j].objects[e].legacy
    decreases j
  {
    assert NextAt(states, steps, j - 1);
    if i + 1 < j { LegacyStays(states, steps, i, j - 1, k, e); }
  }

  /** The reaper never removes the binding of a legacy session. */
  lemma LegacyIsNeverReaped(states: seq<State>, steps: seq<Step>, i: nat, j: nat, k: Key, e: Eid)
    requires Run(states, steps) && i < j < |steps| && steps[i] == BindLegacy(k, e) && steps[j] == Take
    ensures states[j].reaper.Taking? && states[j].reaper.e != e
  {
    LegacyStays(states, steps, i, j, k, e);
    ReaperSafety(states, steps, j);
  }

  /** An allocated or acquired database is held from that step on: its guard lives. */
  lemma AcquisitionGuards(states: seq<State>, steps: seq<Step>, i: nat)
    requires Run(states, steps) && i < |steps| && (steps[i].Allocate? || steps[i].Acquire?)
    ensures var g := steps[i].g;
            && g in states[i + 1].guards && steps[i].k in states[i + 1].entries
            && states[i + 1].guards[g].entry == states[i + 1].entries[steps[i].k]
            && states[i + 1].guards[g].pin == (steps[i].Acquire? && steps[i].pin)
            && !states[i + 1].guards[g].stage.Dropping?
  {
    assert NextAt(states, steps, i);
  }

  // ---- Terminal removals and the lease ----

  /** The removal at `j` was let through by a policy read, with the mutex held ever since. */
  lemma {:induction false} PolicyRead(states: seq<State>, steps: seq<Step>, j: nat) returns (i: nat)
    requires Run(states, steps) && j < |states| && states[j].reaper.Taking? && states[j].reaper.check.Expired?
    ensures i < j && steps[i] == SeePolicy && states[i].reaper == states[j].reaper.(check := NoPins)
    ensures states[i].reaper.e in states[i].objects && PolicyHolds(states[i], states[i].reaper.e, states[i].reaper.reason)
    ensures forall k | i < k <= j :: states[k].reaper == states[j].reaper
  {
    assert NextAt(states, steps, j - 1);
    if states[j - 1].reaper == states[j].reaper {
      i := PolicyRead(states, steps, j - 1);
    } else {
      i := j - 1;
    }
  }

  /** One of the steps from `i` up to `j` installs a lease of `e`, and none after it clears it. */
  ghost predicate InstallsLast(steps: seq<Step>, i: nat, j: nat, e: Eid)
    requires j <= |steps|
  {
    exists k :: i <= k < j && steps[k] == InstallLease(e) && forall m | k < m < j :: steps[m] != ClearLease(e)
  }

  lemma InstallsLastStep(steps: seq<Step>, i: nat, j: nat, e: Eid)
    requires i < j <= |steps|
    ensures InstallsLast(steps, i, j, e) <==>
            steps[j - 1] == InstallLease(e) || (InstallsLast(steps, i, j - 1, e) && steps[j - 1] != ClearLease(e))
  {
    if InstallsLast(steps, i, j, e) && steps[j - 1] != InstallLease(e) {
      var k :| i <= k < j && steps[k] == InstallLease(e) && forall m | k < m < j :: steps[m] != ClearLease(e);
      assert k < j - 1;
    }
    if InstallsLast(steps, i, j - 1, e) && steps[j - 1] != ClearLease(e) {
      var k :| i <= k < j - 1 && steps[k] == InstallLease(e) && forall m | k < m < j - 1 :: steps[m] != ClearLease(e);
      assert forall m | k < m < j :: steps[m] != ClearLease(e);
    }
  }

  lemma {:induction false} LeaseHistory(states: seq<State>, steps: seq<Step>, i: nat, j: nat, e: Eid)
    requires Run(states, steps) && i <= j < |states| && e in states[i].objects && !states[i].objects[e].lease
    ensures e in states[j].objects
    ensures states[j].objects[e].lease <==> InstallsLast(steps, i, j, e)
    decreases j
  {
    if i < j {
      LeaseHistory(states, steps, i, j - 1, e);
      InstallsLastStep(steps, i, j, e);
      assert NextAt(states, steps, j - 1);
    }
  }

  /** A terminal removal takes an entry with a lease if and only if a lease of that
      entry was installed, and not cleared again, after the policy read. */
  lemma TerminalTakesLeaseIff(states: seq<State>, steps: seq<Step>, j: nat) returns (i: nat)
    requires Run(states, steps) && j < |steps| && steps[j] == Take && states[j].reaper.Taking? && states[j].reaper.reason.Terminal?
    ensures i < j && steps[i] == SeePolicy && states[j].reaper.e in states[j].objects
    ensures forall k | i < k <= j :: states[k].reaper == states[j].reaper
    ensures states[j].objects[states[j].reaper.e].lease <==> InstallsLast(steps, i, j, states[j].reaper.e)
  {
    assert NextAt(states, steps, j);
    i := PolicyRead(states, steps, j);
    LeaseHistory(states, steps, i, j, states[j].reaper.e);
  }

  /** As every caller opens the entry's database under a workspace lease or pin, a
      terminal removal finds no lease: after the policy read the entry has no guard
      under which one could be installed. */
  lemma GuardedOpensSpareTerminal(states: seq<State>, steps: seq<Step>, j: nat) returns (i: nat)
    requires Run(states, steps) && j < |steps| && steps[j] == Take && states[j].reaper.Taking? && states[j].reaper.reason.Terminal?
    ensures i < j && steps[i] == SeePolicy && states[j].reaper.e in states[j].objects
    ensures (forall k | i <= k < j :: steps[k] == InstallLease(states[j].reaper.e) ==> Guarded(states[k], states[j].reaper.e)) ==>
              !states[j].objects[states[j].reaper.e].lease
  {
    i := TerminalTakesLeaseIff(states, steps, j);
    var e := states[j].reaper.e;
    forall k | i < k < j ensures !Guarded(states[k], e) {
      RunKeeps(states, steps, k);
      assert states[k].reaper == states[j].reaper;
      assert NextAt(states, steps, j);
      NoGuards(states[k], e);
    }
  }

  /** A guard that has not been stamped for release at state `i` is still live at `j`, or was stamped since. */
  ghost predicate StampedSince(s: State, g: Gid, guard: Guard, at: nat) {
    && guard.entry in s.objects
    && (|| (g in s.guards && s.guards[g].entry == guard.entry && s.guards[g].pin == guard.pin && !s.guards[g].stage.Dropping?)
        || s.objects[guard.entry].lastUsed >= at)
  }

  lemma StampStep(s: State, a: Step, g: Gid, guard: Guard, at: nat)
    requires Inv(s) && Enabled(s, a) && StampedSince(s, g, guard, at) && at <= s.now
    ensures StampedSince(Apply(s, a), g, guard, at) && at <= Apply(s, a).now
  {
  }

  lemma {:induction false} GuardStamped(states: seq<State>, steps: seq<Step>, i: nat, j: nat, g: Gid)
    requires Run(states, steps) && i <= j < |states| && g in states[i].guards && !states[i].guards[g].stage.Dropping?
    ensures StampedSince(states[j], g, states[i].guards[g], states[i].now) && states[i].now <= states[j].now
    decreases j
  {
    RunKeeps(states, steps, i);
    assert GuardAt(states[i].objects, states[i].guards, g);
    if i < j {
      GuardStamped(states, steps, i, j - 1, g);
      RunKeeps(states, steps, j - 1);
      assert NextAt(states, steps, j - 1);
      StampStep(states[j - 1], steps[j - 1], g, states[i].guards[g], states[i].now);
    }
  }

  /** The timeout is the run's timeout. */
  lemma {:induction false} TimeoutFixed(states: seq<State>, steps: seq<Step>, i: nat)
    requires Run(states, steps) && i < |states|
    ensures states[i].timeout == states[0].timeout
  {
    if i > 0 {
      TimeoutFixed(states, steps, i - 1);
      assert NextAt(states, steps, i - 1);
    }
  }

  /** No entry is reaped as idle within `idle_timeout` of any moment at which one
      of its guards was in use, however the touch, the decrement and the reaper's
      reads interleave. */
  lemma IdleSinceLastUse(states: seq<State>, steps: seq<Step>, i: nat, j: nat, g: Gid)
    requires Run(states, steps) && i <= j < |steps| && steps[j] == Take && states[j].reaper.Taking? && states[j].reaper.reason.Idle?
    requires g in states[i].guards && states[i].guards[g].entry == states[j].reaper.e && !states[i].guards[g].stage.Dropping?
    ensures states[0].timeout != 0 && states[j].now >= states[i].now + states[0].timeout
  {
    GuardStamped(states, steps, i, j, g);
    ReaperSafety(states, steps, j);
    TimeoutFixed(states, steps, j);
  }

  // ---- An open without a guard ----

  ghost predicate Reachable(s: State) {
    exists states, steps :: Run(states, steps) && states[|steps|] == s
  }

  lemma ReachStep(s: State, a: Step, s1: State)
    requires Reachable(s) && Enabled(s, a) && s1 == Apply(s, a)
    ensures Reachable(s1)
  {
    var states, steps :| Run(states, steps) && states[|steps|] == s;
    var states1, steps1 := states + [s1], steps + [a];
    forall i ensures NextAt(states1, steps1, i) { assert NextAt(states, steps, i); }
    assert Run(states1, steps1) && states1[|steps1|] == s1;
  }

  function Racing(entry: Entry, guards: map<Gid, Guard>, reaper: Reaper): State {
    State(5, 0, map["k" := 0], map[0 := entry], guards, {"k"}, reaper)
  }

  const QUIET := Entry(0, 0, 0, false, false)

  function Held0(stage: GuardStage): State {
    Racing(QUIET.(active := 1), map[0 := Guard(0, false, stage)], Resting)
  }

  function Taking0(check: Check): State {
    Racing(QUIET, map[], Taking("k", 0, Terminal, check))
  }

  lemma ReachHeld()
    ensures Reachable(Held0(Held))
  {
    var s0 := State(5, 0, map[], map[], map[], {}, Resting);
    var steps: seq<Step> := [];
    assert Run([s0], steps) && [s0][|steps|] == s0;
    ReachStep(s0, Allocate("k", 0, 0), Held0(Held));
  }

  lemma ReachDropping()
    ensures Reachable(Held0(Dropping))
  {
    ReachHeld();
    ReachStep(Held0(Held), DropTouch(0), Held0(Dropping));
  }

  lemma ReachUnguarded()
    ensures Reachable(Racing(QUIET, map[], Resting))
  {
    ReachDropping();
    ReachStep(Held0(Dropping), DropCount(0), Racing(QUIET, map[], Resting));
  }

  lemma ReachLooked()
    ensures Reachable(Taking0(NoCalls))
  {
    ReachUnguarded();
    ReachStep(Racing(QUIET, map[], Resting), Look("k", Terminal), Taking0(Looked));
    ReachStep(Taking0(Looked), SeeCalls, Taking0(NoCalls));
  }

  lemma ReachExpired()
    ensures Reachable(Taking0(Expired))
  {
    ReachLooked();
    ReachStep(Taking0(NoCalls), SeePins, Taking0(NoPins));
    ReachStep(Taking0(NoPins), SeePolicy, Taking0(Expired));
  }

  /** An open that runs without a guard can slip between the reaper's last read
      and the removal: a terminal removal then takes an entry with a lease. */
  lemma UnguardedOpenRaces() returns (s: State)
    ensures Reachable(s) && Enabled(s, Take) && s.reaper.reason.Terminal?
    ensures s.objects[s.reaper.e].lease && !Guarded(s, s.reaper.e)
  {
    ReachExpired();
    s := Racing(QUIET.(lease := true), map[], Taking("k", 0, Terminal, Expired));
    assert !Guarded(Taking0(Expired), 0);
    ReachStep(Taking0(Expired), InstallLease(0), s);
  }
}
