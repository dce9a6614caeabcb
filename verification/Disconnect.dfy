/** Delayed cleanup of pooled HTTP sessions: streams come and go, an abandoned
    stream schedules a cleanup for its generation, a reconnect invalidates it. */
module Disconnect {
  import opened Wrappers

  type SessionId = string
  type Gid = nat
  type Cid = nat

  const WRAP: nat := 0x1_0000_0000_0000_0000   // generations are u64

  datatype Session = Session(generation: nat, active: nat, abandoned: Option<nat>)

  type Sessions = map<SessionId, Session>

  // ---- The registry's four critical sections ----

  function Entry(states: Sessions, id: SessionId): Session {
    if id in states then states[id] else Session(0, 0, None)
  }

  function StreamOpened(states: Sessions, id: SessionId): Sessions {
    var was := Entry(states, id);
    states[id := Session((was.generation + 1) % WRAP, was.active + 1, None)]
  }

  function StreamClosed(states: Sessions, id: SessionId, generation: nat, abandoned: bool): Sessions {
    if id !in states then states
    else
      var was := states[id];
      states[id := was.(active := if was.active > 0 then was.active - 1 else 0,
                        abandoned := if abandoned then Some(generation) else was.abandoned)]
  }

  /** The generation a cleanup is scheduled for, read after the stream was closed. */
  function CloseGeneration(states: Sessions, id: SessionId): Option<nat> {
    if id in states && states[id].active == 0 then states[id].abandoned else None
  }

  predicate ShouldClose(states: Sessions, id: SessionId, generation: nat) {
    id in states && states[id].abandoned == Some(generation) && states[id].active == 0
  }

  class SessionDisconnectRegistry {
    var states: Sessions

    constructor ()
      ensures states == map[]
    {
      states := map[];
    }

    method OpenStream(id: SessionId) returns (generation: nat)
      modifies this
      ensures states == StreamOpened(old(states), id) && generation == states[id].generation
    {
      var state := if id in states then states[id] else Session(0, 0, None);
      state := state.(generation := (state.generation + 1) % WRAP);
      state := state.(active := state.active + 1, abandoned := None);
      states := states[id := state];
      generation := state.generation;
    }

    method CloseStream(id: SessionId, generation: nat, abandoned: bool) returns (cleanup: Option<nat>)
      modifies this
      ensures states == StreamClosed(old(states), id, generation, abandoned)
      ensures cleanup == CloseGeneration(states, id)
    {
      if id !in states {
        return None;
      }
      var state := states[id];
      state := state.(active := if state.active > 0 then state.active - 1 else 0);
      if abandoned {
        state := state.(abandoned := Some(generation));
      }
      states := states[id := state];
      cleanup := if state.active == 0 then state.abandoned else None;
    }

    method CloseSession(id: SessionId)
      modifies this
      ensures states == old(states) - {id}
    {
      states := states - {id};
    }
  }

  // ---- The protocol ----

  /** A stream guard; `serial` counts the streams of its session without wrapping. */
  datatype Guard = Guard(session: SessionId, generation: nat, serial: nat)

  /** A delayed cleanup, with the stream that was abandoned and the number of
      streams the session had opened when that happened. */
  datatype Cleanup = Cleanup(session: SessionId, generation: nat, serial: nat, opensThen: nat, closing: bool)

  datatype Trail = Trail(serial: nat, opensThen: nat)

  datatype State = State(
    states: Sessions,
    guards: map<Gid, Guard>,
    cleanups: map<Cid, Cleanup>,
    closed: set<SessionId>,
    opens: map<SessionId, nat>,      // history: streams opened per session
    trails: map<SessionId, Trail>)   // history: the last abandonment per session

  datatype Step =
    | Open(id: SessionId, g: Gid)
    | Finish(g: Gid, abandoned: bool, c: Cid)
    | Decide(c: Cid)
    | CloseDone(c: Cid)
    | ClientClose(id: SessionId)

  predicate Enabled(s: State, a: Step) {
    match a
    case Open(id, g) => id !in s.closed && g !in s.guards
    case Finish(g, _, c) => g in s.guards && c !in s.cleanups
    case Decide(c) => c in s.cleanups && !s.cleanups[c].closing
    case CloseDone(c) => c in s.cleanups && s.cleanups[c].closing
    case ClientClose(id) => true
  }

  function Opens(s: State, id: SessionId): nat {
    if id in s.opens then s.opens[id] else 0
  }

  function Forgotten(s: State, id: SessionId): State {
    s.(states := s.states - {id}, closed := s.closed + {id})
  }

  function Trailed(s: State, g: Gid, abandoned: bool): map<SessionId, Trail>
    requires g in s.guards
  {
    var k := s.guards[g];
    if abandoned && k.session in s.states then s.trails[k.session := Trail(k.serial, Opens(s, k.session))] else s.trails
  }

  function Apply(s: State, a: Step): State
    requires Enabled(s, a)
  {
    match a
    case Open(id, g) =>
      var states, n := StreamOpened(s.states, id), Opens(s, id) + 1;
      s.(states := states, opens := s.opens[id := n], guards := s.guards[g := Guard(id, states[id].generation, n)])
    case Finish(g, abandoned, c) =>
      var k := s.guards[g];
      var states, trails := StreamClosed(s.states, k.session, k.generation, abandoned), Trailed(s, g, abandoned);
      var due := if k.session in s.states then CloseGeneration(states, k.session) else None;
      s.(states := states, trails := trails, guards := s.guards - {g},
         cleanups := if due.Some? && k.session in trails
                     then s.cleanups[c := Cleanup(k.session, due.value, trails[k.session].serial, trails[k.session].opensThen, false)]
                     else s.cleanups)
    case Decide(c) =>
      var k := s.cleanups[c];
      if ShouldClose(s.states, k.session, k.generation) then s.(cleanups := s.cleanups[c := k.(closing := true)])
      else s.(cleanups := s.cleanups - {c})
    case CloseDone(c) => Forgotten(s, s.cleanups[c].session).(cleanups := s.cleanups - {c})
    case ClientClose(id) => Forgotten(s, id)
  }

  // ---- The invariant ----

  function GuardsOf(guards: map<Gid, Guard>, id: SessionId): set<Gid> {
    set g | g in guards && guards[g].session == id
  }

  predicate Serial(serial: nat, generation: nat, opens: nat) {
    1 <= serial <= opens && generation == serial % WRAP
  }

  /** The stream `serial` of session `id` is no longer open. */
  ghost predicate Over(guards: map<Gid, Guard>, id: SessionId, serial: nat) {
    forall g :: g in guards && guards[g].session == id ==> guards[g].serial != serial
  }

  ghost predicate GuardAt(s: State, g: Gid) {
    g in s.guards ==>
      var k := s.guards[g];
      && Serial(k.serial, k.generation, Opens(s, k.session))
      && (k.session in s.states || k.session in s.closed)
      && (forall h :: h in s.guards && h != g && s.guards[h].session == k.session ==> s.guards[h].serial != k.serial)
  }

  ghost predicate Pending(s: State, id: SessionId, generation: nat) {
    exists c :: c in s.cleanups && s.cleanups[c].session == id && s.cleanups[c].generation == generation
  }

  ghost predicate SessionAt(s: State, id: SessionId) {
    id in s.states ==>
      var x := s.states[id];
      && id !in s.closed
      && x.generation == Opens(s, id) % WRAP
      && x.active == |GuardsOf(s.guards, id)|
      && (x.abandoned.Some? ==>
            && id in s.trails && Serial(s.trails[id].serial, x.abandoned.value, Opens(s, id))
            && s.trails[id].opensThen == Opens(s, id)
            && Over(s.guards, id, s.trails[id].serial))
      && (x.abandoned.Some? && x.active == 0 ==> Pending(s, id, x.abandoned.value))
  }

  predicate Abandoned(s: State, id: SessionId) {
    id in s.states && s.states[id].abandoned.Some? && id in s.trails
  }

  ghost predicate CleanupAt(s: State, c: Cid) {
    c in s.cleanups ==>
      var k := s.cleanups[c];
      && Serial(k.serial, k.generation, Opens(s, k.session))
      && k.opensThen <= Opens(s, k.session)
      && Over(s.guards, k.session, k.serial)
      && (k.session in s.states || k.session in s.closed)
      && (Abandoned(s, k.session) && s.trails[k.session].serial == k.serial ==> s.trails[k.session].opensThen == k.opensThen)
  }

  ghost predicate NewAt(s: State, id: SessionId) {
    id !in s.states && id !in s.closed ==> Opens(s, id) == 0
  }

  ghost predicate Inv(s: State) {
    && (forall g {:trigger GuardAt(s, g)} :: GuardAt(s, g))
    && (forall id {:trigger SessionAt(s, id)} :: SessionAt(s, id))
    && (forall c {:trigger CleanupAt(s, c)} :: CleanupAt(s, c))
    && (forall id {:trigger NewAt(s, id)} :: NewAt(s, id))
  }

  lemma SizeDrop(guards: map<Gid, Guard>, g: Gid, id: SessionId)
    requires g in guards
    ensures |GuardsOf(guards - {g}, id)| == |GuardsOf(guards, id)| - if guards[g].session == id then 1 else 0
  {
    if guards[g].session == id {
      assert GuardsOf(guards - {g}, id) == GuardsOf(guards, id) - {g};
    } else {
      assert GuardsOf(guards - {g}, id) == GuardsOf(guards, id);
    }
  }

  lemma SizeAdd(guards: map<Gid, Guard>, g: Gid, k: Guard, id: SessionId)
    requires g !in guards
    ensures |GuardsOf(guards[g := k], id)| == |GuardsOf(guards, id)| + if k.session == id then 1 else 0
  {
    assert guards[g := k] - {g} == guards;
    SizeDrop(guards[g := k], g, id);
  }

  lemma NoGuardsYet(s: State, id: SessionId)
    requires Inv(s) && id !in s.states && id !in s.closed
    ensures |GuardsOf(s.guards, id)| == 0
  {
    forall g | g in s.guards ensures s.guards[g].session != id { assert GuardAt(s, g); }
    assert GuardsOf(s.guards, id) == {};
  }

  lemma OpenGuards(s: State, id: SessionId, g: Gid)
    requires Inv(s) && Enabled(s, Open(id, g))
    ensures forall h {:trigger GuardAt(Apply(s, Open(id, g)), h)} :: GuardAt(Apply(s, Open(id, g)), h)
  {
    var s1 := Apply(s, Open(id, g));
    assert SessionAt(s, id) && NewAt(s, id);
    forall x | x in s.guards ensures s.guards[x].session == id ==> s.guards[x].serial <= Opens(s, id) { assert GuardAt(s, x); }
    forall h ensures GuardAt(s1, h) { assert GuardAt(s, h); }
  }

  lemma OpenSession(s: State, id: SessionId, g: Gid, x: SessionId)
    requires Inv(s) && Enabled(s, Open(id, g))
    ensures SessionAt(Apply(s, Open(id, g)), x)
  {
    var s1 := Apply(s, Open(id, g));
    assert SessionAt(s, x) && NewAt(s, id);
    if id !in s.states { NoGuardsYet(s, id); }
    SizeAdd(s.guards, g, s1.guards[g], x);
    if x in s.states && x != id && s.states[x].abandoned.Some? && s.states[x].active == 0 {
      assert Pending(s1, x, s.states[x].abandoned.value);
    }
  }

  lemma OpenKeeps(s: State, id: SessionId, g: Gid)
    requires Inv(s) && Enabled(s, Open(id, g))
    ensures Inv(Apply(s, Open(id, g)))
  {
    var s1 := Apply(s, Open(id, g));
    OpenGuards(s, id, g);
    forall x ensures SessionAt(s1, x) { OpenSession(s, id, g, x); }
    forall c ensures CleanupAt(s1, c) { assert CleanupAt(s, c); }
    forall x ensures NewAt(s1, x) { assert NewAt(s, x); }
  }

  lemma FinishKeeps(s: State, g: Gid, abandoned: bool, c: Cid)
    requires Inv(s) && Enabled(s, Finish(g, abandoned, c))
    ensures Inv(Apply(s, Finish(g, abandoned, c)))
  {
    var s1 := Apply(s, Finish(g, abandoned, c));
    var k := s.guards[g];
    assert GuardAt(s, g) && SessionAt(s, k.session);
    SizeDrop(s.guards, g, k.session);
    assert g in GuardsOf(s.guards, k.session);
    forall h ensures GuardAt(s1, h) { assert GuardAt(s, h); }
    forall x ensures SessionAt(s1, x) {
      assert SessionAt(s, x);
      SizeDrop(s.guards, g, x);
      FinishPends(s, g, abandoned, c, x);
    }
    forall d ensures CleanupAt(s1, d) { assert CleanupAt(s, d); }
    forall x ensures NewAt(s1, x) { assert NewAt(s, x); }
  }

  lemma FinishPends(s: State, g: Gid, abandoned: bool, c: Cid, x: SessionId)
    requires Inv(s) && Enabled(s, Finish(g, abandoned, c))
    ensures var s1 := Apply(s, Finish(g, abandoned, c));
            x in s1.states && s1.states[x].abandoned.Some? && s1.states[x].active == 0 ==> Pending(s1, x, s1.states[x].abandoned.value)
  {
    var s1 := Apply(s, Finish(g, abandoned, c));
    assert SessionAt(s, x);
    if x in s1.states && s1.states[x].abandoned.Some? && s1.states[x].active == 0 {
      if x == s.guards[g].session {
        assert s1.cleanups[c].session == x && s1.cleanups[c].generation == s1.states[x].abandoned.value;
      } else {
        var d :| d in s.cleanups && s.cleanups[d].session == x && s.cleanups[d].generation == s.states[x].abandoned.value;
        assert d in s1.cleanups && s1.cleanups[d] == s.cleanups[d];
      }
    }
  }

  lemma DecideKeeps(s: State, c: Cid)
    requires Inv(s) && Enabled(s, Decide(c))
    ensures Inv(Apply(s, Decide(c)))
  {
    var s1 := Apply(s, Decide(c));
    forall h ensures GuardAt(s1, h) { assert GuardAt(s, h); }
    forall x ensures SessionAt(s1, x) { DecideSession(s, c, x); }
    forall d ensures CleanupAt(s1, d) { assert CleanupAt(s, d); }
    forall x ensures NewAt(s1, x) { assert NewAt(s, x); }
  }

  lemma DecideSession(s: State, c: Cid, x: SessionId)
    requires Inv(s) && Enabled(s, Decide(c))
    ensures SessionAt(Apply(s, Decide(c)), x)
  {
    var s1 := Apply(s, Decide(c));
    assert SessionAt(s, x);
    if x in s.states && s.states[x].abandoned.Some? && s.states[x].active == 0 {
      var d :| d in s.cleanups && s.cleanups[d].session == x && s.cleanups[d].generation == s.states[x].abandoned.value;
      assert d in s1.cleanups && s1.cleanups[d].session == x && s1.cleanups[d].generation == s.cleanups[d].generation;
    }
  }

  lemma ForgetKeeps(s: State, id: SessionId, s1: State)
    requires Inv(s) && s1 == Forgotten(s, id).(cleanups := s1.cleanups)
    requires s1.cleanups.Keys <= s.cleanups.Keys && forall c :: c in s1.cleanups ==> s1.cleanups[c] == s.cleanups[c]
    requires forall c :: c in s.cleanups && s.cleanups[c].session != id ==> c in s1.cleanups
    ensures Inv(s1)
  {
    forall h ensures GuardAt(s1, h) { assert GuardAt(s, h); }
    forall x ensures SessionAt(s1, x) {
      assert SessionAt(s, x);
      if x in s1.states && s1.states[x].abandoned.Some? && s1.states[x].active == 0 {
        var d :| d in s.cleanups && s.cleanups[d].session == x && s.cleanups[d].generation == s.states[x].abandoned.value;
        assert d in s1.cleanups;
      }
    }
    forall d ensures CleanupAt(s1, d) { assert CleanupAt(s, d); }
    forall x ensures NewAt(s1, x) { assert NewAt(s, x); }
  }

  lemma StepKeeps(s: State, a: Step)
    requires Inv(s) && Enabled(s, a)
    ensures Inv(Apply(s, a))
  {
    match a
    case Open(id, g) => OpenKeeps(s, id, g);
    case Finish(g, abandoned, c) => FinishKeeps(s, g, abandoned, c);
    case Decide(c) => DecideKeeps(s, c);
    case CloseDone(c) => ForgetKeeps(s, s.cleanups[c].session, Apply(s, a));
    case ClientClose(id) => ForgetKeeps(s, id, Apply(s, a));
  }

  // ---- Runs ----

  ghost predicate Init(s: State) {
    s == State(map[], map[], map[], {}, map[], map[])
  }

  ghost predicate NextAt(states: seq<State>, steps: seq<Step>, i: int) {
    0 <= i < |steps| && i + 1 < |states| ==> Enabled(states[i], steps[i]) && states[i + 1] == Apply(states[i], steps[i])
  }

  ghost predicate Run(states: seq<State>, steps: seq<Step>) {
    |states| == |steps| + 1 && Init(states[0]) && forall i {:trigger NextAt(states, steps, i)} :: NextAt(states, steps, i)
  }

  lemma {:induction false} RunKeeps(states: seq<State>, steps: seq<Step>, i: nat)
    requires Run(states, steps) && i < |states|
    ensures Inv(states[i])
  {
    if i > 0 {
      RunKeeps(states, steps, i - 1);
      assert NextAt(states, steps, i - 1);
      StepKeeps(states[i - 1], steps[i - 1]);
    }
  }

  lemma SerialsEqual(a: nat, b: nat, generation: nat, opens: nat)
    requires Serial(a, generation, opens) && Serial(b, generation, opens) && opens <= WRAP
    ensures a == b
  {
  }

  /** At its decision: a delayed cleanup decides to close only if every stream of
      the session has finished and none was opened since the abandonment it
      captured. The generations tell at most 2^64 streams of one session apart. */
  lemma DecidesOnlyAbandoned(states: seq<State>, steps: seq<Step>, i: nat, c: Cid)
    requires Run(states, steps) && i < |steps| && steps[i] == Decide(c)
    requires c in states[i].cleanups && ShouldClose(states[i].states, states[i].cleanups[c].session, states[i].cleanups[c].generation)
    ensures forall g :: g in states[i].guards ==> states[i].guards[g].session != states[i].cleanups[c].session
    ensures var s, k := states[i], states[i].cleanups[c];
            Opens(s, k.session) <= WRAP ==> k.opensThen == Opens(s, k.session)
  {
    RunKeeps(states, steps, i);
    var s, k := states[i], states[i].cleanups[c];
    assert SessionAt(s, k.session) && CleanupAt(s, c);
    forall g | g in s.guards ensures s.guards[g].session == k.session ==> g in GuardsOf(s.guards, k.session) { }
    if Opens(s, k.session) <= WRAP { SerialsEqual(k.serial, s.trails[k.session].serial, k.generation, Opens(s, k.session)); }
  }

  // ---- From the decision to the close ----

  predicate Reconnects(a: Step, id: SessionId) {
    a.Open? && a.id == id
  }

  /** The streams of `id` that the steps from `i` up to `j` open. */
  function Reconnections(steps: seq<Step>, i: nat, j: nat, id: SessionId): nat
    requires i <= j <= |steps|
  {
    if i == j then 0 else Reconnections(steps, i, j - 1, id) + if Reconnects(steps[j - 1], id) then 1 else 0
  }

  lemma {:induction false} ReconnectionsZero(steps: seq<Step>, i: nat, j: nat, id: SessionId)
    requires i <= j <= |steps|
    ensures Reconnections(steps, i, j, id) == 0 <==> forall k | i <= k < j :: !Reconnects(steps[k], id)
  {
    if i < j { ReconnectionsZero(steps, i, j - 1, id); }
  }

  lemma {:induction false} OpensCounted(states: seq<State>, steps: seq<Step>, i: nat, j: nat, id: SessionId)
    requires Run(states, steps) && i <= j < |states|
    ensures Opens(states[j], id) == Opens(states[i], id) + Reconnections(steps, i, j, id)
    decreases j
  {
    if i < j {
      OpensCounted(states, steps, i, j - 1, id);
      assert NextAt(states, steps, j - 1);
    }
  }

  lemma {:induction false} StaysQuiet(states: seq<State>, steps: seq<Step>, i: nat, j: nat, id: SessionId)
    requires Run(states, steps) && i <= j < |states| && Reconnections(steps, i, j, id) == 0
    requires forall g :: g in states[i].guards ==> states[i].guards[g].session != id
    ensures forall g :: g in states[j].guards ==> states[j].guards[g].session != id
    decreases j
  {
    if i < j {
      StaysQuiet(states, steps, i, j - 1, id);
      assert NextAt(states, steps, j - 1);
    }
  }

  /** A closing cleanup was let through by a decision, and has not changed since. */
  lemma {:induction false} ClosingDecided(states: seq<State>, steps: seq<Step>, j: nat, c: Cid) returns (i: nat)
    requires Run(states, steps) && j < |states| && c in states[j].cleanups && states[j].cleanups[c].closing
    ensures i < j && steps[i] == Decide(c) && c in states[i].cleanups
    ensures states[i].cleanups[c] == states[j].cleanups[c].(closing := false)
    ensures ShouldClose(states[i].states, states[i].cleanups[c].session, states[i].cleanups[c].generation)
    ensures forall k | i < k <= j :: c in states[k].cleanups && states[k].cleanups[c] == states[j].cleanups[c]
  {
    assert NextAt(states, steps, j - 1);
    if c in states[j - 1].cleanups && states[j - 1].cleanups[c].closing {
      i := ClosingDecided(states, steps, j - 1, c);
    } else {
      i := j - 1;
    }
  }

  /** Nothing of the session is in use: no stream of it is open, and none was
      opened since the abandonment that the cleanup captured. */
  ghost predicate Unused(s: State, k: Cleanup) {
    && k.opensThen == Opens(s, k.session)
    && (forall g :: g in s.guards ==> s.guards[g].session != k.session)
  }

  /** The close: a cleanup closes a session that is unused exactly when no stream
      of it was opened between the decision and the close; each one that was is a
      stream opened since the abandonment. */
  lemma ClosesOnlyAbandoned(states: seq<State>, steps: seq<Step>, j: nat, c: Cid) returns (i: nat)
    requires Run(states, steps) && j < |steps| && steps[j] == CloseDone(c)
    ensures c in states[j].cleanups && i < j && steps[i] == Decide(c)
    ensures forall k | i < k <= j :: c in states[k].cleanups && states[k].cleanups[c] == states[j].cleanups[c]
    ensures var k := states[j].cleanups[c];
            Opens(states[j], k.session) <= WRAP ==>
              && Opens(states[j], k.session) == k.opensThen + Reconnections(steps, i, j, k.session)
              && (Unused(states[j], k) <==> forall m | i <= m < j :: !Reconnects(steps[m], k.session))
  {
    assert NextAt(states, steps, j);
    i := ClosingDecided(states, steps, j, c);
    var k := states[j].cleanups[c];
    DecidesOnlyAbandoned(states, steps, i, c);
    OpensCounted(states, steps, i, j, k.session);
    ReconnectionsZero(steps, i, j, k.session);
    if Reconnections(steps, i, j, k.session) == 0 { StaysQuiet(states, steps, i, j, k.session); }
  }

  /** Conversely no abandoned session is forgotten: one without active streams has
      a cleanup for exactly its abandoned generation on the way. */
  lemma AbandonedIsPending(states: seq<State>, steps: seq<Step>, i: nat, id: SessionId)
    requires Run(states, steps) && i < |states| && id in states[i].states
    requires states[i].states[id].abandoned.Some?
    requires forall g :: g in states[i].guards ==> states[i].guards[g].session != id
    ensures Pending(states[i], id, states[i].states[id].abandoned.value)
    ensures ShouldClose(states[i].states, id, states[i].states[id].abandoned.value)
  {
    RunKeeps(states, steps, i);
    assert SessionAt(states[i], id);
    assert GuardsOf(states[i].guards, id) == {};
  }

  /** A cleanup is scheduled exactly by the end of the last stream of a session that
      remembers an abandonment, and for that abandonment. */
  lemma ScheduledByLastStream(states: seq<State>, steps: seq<Step>, i: nat)
    requires Run(states, steps) && i < |steps| && steps[i].Finish?
    ensures steps[i].g in states[i].guards
    ensures var s, s1, id, c := states[i], states[i + 1], states[i].guards[steps[i].g].session, steps[i].c;
            && c !in s.cleanups
            && (c in s1.cleanups <==>
                  && id in s1.states && s1.states[id].abandoned.Some?
                  && forall g :: g in s1.guards ==> s1.guards[g].session != id)
            && (c in s1.cleanups ==> s1.cleanups[c].session == id && Some(s1.cleanups[c].generation) == s1.states[id].abandoned)
  {
    RunKeeps(states, steps, i);
    RunKeeps(states, steps, i + 1);
    assert NextAt(states, steps, i);
    var s, s1, id := states[i], states[i + 1], states[i].guards[steps[i].g].session;
    assert SessionAt(s, id) && SessionAt(s1, id);
    NoneLive(s1.guards, id);
  }

  lemma NoneLive(guards: map<Gid, Guard>, id: SessionId)
    ensures |GuardsOf(guards, id)| == 0 <==> forall g :: g in guards ==> guards[g].session != id
  {
    forall g | g in guards ensures guards[g].session == id ==> g in GuardsOf(guards, id) { }
    if forall g :: g in guards ==> guards[g].session != id { assert GuardsOf(guards, id) == {}; }
  }

  // ---- An abandonment lasts until a reconnect ----

  /** Step `i` is the abandoned end of a stream of `id` whose session is still known. */
  ghost predicate Abandons(states: seq<State>, steps: seq<Step>, i: int, id: SessionId) {
    && 0 <= i < |steps| && i < |states| && steps[i].Finish? && steps[i].abandoned
    && steps[i].g in states[i].guards && states[i].guards[steps[i].g].session == id && id in states[i].states
  }

  /** The last abandoned stream of `id` since step `i` is what the session remembers,
      however other streams end, as long as none is opened and the session is not closed. */
  lemma {:induction false} AbandonmentLasts(states: seq<State>, steps: seq<Step>, i: nat, j: nat, id: SessionId) returns (m: nat)
    requires Run(states, steps) && i < j < |states| && Abandons(states, steps, i, id)
    requires (forall k | i < k < j :: !Reconnects(steps[k], id)) && id in states[j].states
    ensures i <= m < j && Abandons(states, steps, m, id) && forall k | m < k < j :: !Abandons(states, steps, k, id)
    ensures states[j].states[id].abandoned == Some(states[m].guards[steps[m].g].generation)
    decreases j
  {
    assert NextAt(states, steps, j - 1);
    if Abandons(states, steps, j - 1, id) {
      m := j - 1;
    } else {
      assert id in states[j - 1].states;
      m := AbandonmentLasts(states, steps, i, j - 1, id);
    }
  }

  /** No abandoned session is forgotten: if a stream of it was abandoned, none was opened
      since, the session was not closed and all its streams have ended in whatever
      order and way, a cleanup for its last abandoned stream is on the way. */
  lemma AbandonedIsCleanedUp(states: seq<State>, steps: seq<Step>, i: nat, j: nat, id: SessionId) returns (m: nat)
    requires Run(states, steps) && i < j < |states| && Abandons(states, steps, i, id)
    requires (forall k | i < k < j :: !Reconnects(steps[k], id)) && id in states[j].states
    requires forall g :: g in states[j].guards ==> states[j].guards[g].session != id
    ensures i <= m < j && Abandons(states, steps, m, id) && forall k | m < k < j :: !Abandons(states, steps, k, id)
    ensures Pending(states[j], id, states[m].guards[steps[m].g].generation)
  {
    m := AbandonmentLasts(states, steps, i, j, id);
    AbandonedIsPending(states, steps, j, id);
  }

  /** A reconnect before the decision voids the cleanup: the decision drops it. */
  lemma ReconnectVoids(states: seq<State>, steps: seq<Step>, i: nat, c: Cid)
    requires Run(states, steps) && i < |steps| && steps[i] == Decide(c) && c in states[i].cleanups
    requires var k := states[i].cleanups[c]; k.opensThen < Opens(states[i], k.session) <= WRAP
    ensures c !in states[i + 1].cleanups && states[i + 1].states == states[i].states
  {
    assert NextAt(states, steps, i);
    var k := states[i].cleanups[c];
    if ShouldClose(states[i].states, k.session, k.generation) { DecidesOnlyAbandoned(states, steps, i, c); }
  }

  /** A close, by the client or by a cleanup, forgets the session for good. */
  lemma {:induction false} ClosedForGood(states: seq<State>, steps: seq<Step>, i: nat, j: nat, id: SessionId)
    requires Run(states, steps) && i < j < |states|
    requires steps[i] == ClientClose(id)
             || (steps[i].CloseDone? && steps[i].c in states[i].cleanups && states[i].cleanups[steps[i].c].session == id)
    ensures id in states[j].closed && id !in states[j].states
    decreases j
  {
    assert NextAt(states, steps, j - 1);
    if i + 1 < j { ClosedForGood(states, steps, i, j - 1, id); }
  }

  // ---- A session closed under a new stream ----

  ghost predicate Reachable(s: State) {
    exists states, steps :: Run(states, steps) && states[|steps|] == s
  }

  lemma ReachStep(s: State, a: Step, s1: State)
    requires Reachable(s) && Enabled(s, a) && s1 == Apply(s, a)
    ensures Reachable(s1)
  {
    var states, steps :| Run(states, steps) && states[|steps|] == s;
    var states1, steps1 := states + [s1], steps + [a];
    forall i ensures NextAt(states1, steps1, i) { assert NextAt(states, steps, i); }
    assert Run(states1, steps1) && states1[|steps1|] == s1;
  }

  /** One session, "k", after `opens` streams; `guards` and `cleanups` as given. */
  function Scene(session: Session, guards: map<Gid, Guard>, cleanups: map<Cid, Cleanup>, opens: nat, trails: map<SessionId, Trail>): State {
    State(map["k" := session], guards, cleanups, {}, map["k" := opens], trails)
  }

  function Abandoning(closing: bool): State {
    Scene(Session(1, 0, Some(1)), map[], map[0 := Cleanup("k", 1, 1, 1, closing)], 1, map["k" := Trail(1, 1)])
  }

  function Reconnected(): State {
    Scene(Session(2, 1, None), map[5 := Guard("k", 2, 2)], map[0 := Cleanup("k", 1, 1, 1, true)], 2, map["k" := Trail(1, 1)])
  }

  lemma ReachOpened()
    ensures Reachable(Scene(Session(1, 1, None), map[4 := Guard("k", 1, 1)], map[], 1, map[]))
  {
    var s0 := State(map[], map[], map[], {}, map[], map[]);
    var steps: seq<Step> := [];
    assert Run([s0], steps) && [s0][|steps|] == s0;
    ReachStep(s0, Open("k", 4), Scene(Session(1, 1, None), map[4 := Guard("k", 1, 1)], map[], 1, map[]));
  }

  lemma ReachDecided()
    ensures Reachable(Abandoning(true))
  {
    ReachOpened();
    ReachStep(Scene(Session(1, 1, None), map[4 := Guard("k", 1, 1)], map[], 1, map[]), Finish(4, true, 0), Abandoning(false));
    ReachStep(Abandoning(false), Decide(0), Abandoning(true));
  }

  /** A client that reconnects after the decision loses its new stream: a reachable
      state in which the cleanup closes a session with an open stream. */
  lemma ReconnectBeforeCloseIsLost() returns (s: State)
    ensures Reachable(s) && Enabled(s, CloseDone(0)) && 0 in s.cleanups && !Unused(s, s.cleanups[0])
    ensures 5 in s.guards && s.guards[5].session == s.cleanups[0].session
    ensures s.cleanups[0].opensThen < Opens(s, s.cleanups[0].session) <= WRAP
  {
    ReachDecided();
    s := Reconnected();
    ReachStep(Abandoning(true), Open("k", 5), s);
  }
}
