/** The request loop of a worker process, restricted to opening, closing, requests
    bound to a generation, and recovery from a native crash. */
module ChildLoop {
  import opened Wrappers

  type Gen = nat
  type DbId = nat    // which native open produced the database

  const MAX_GENERATION: nat := 0xffff_ffff_ffff_ffff

  datatype Request =
    | Open(ok: bool, path: string)
    | Close(teardown: bool)                 // whether the debugger teardown completes
    | CloseIf(generation: Gen, tornDown: bool)
    | Bound(expected: Option<Gen>, crashes: bool)
    | Shutdown

  /** A request with what the environment does while it is handled. */
  datatype Event = Event(request: Request, cancelled: bool, initOk: bool, initMismatch: bool)

  datatype Reply =
    | Opened(g: Gen) | FailedOpen | Exhausted
    | ClosedDb | CloseRefused | NotCurrent
    | Served | Crashed | Replaced
    | Rejected | Stopped

  datatype Loop = Loop(
    idb: Option<DbId>,
    path: Option<string>,
    generation: Option<Gen>,
    next: nat,
    lock: bool,
    ready: bool,               // the IDA library is initialized
    mismatch: bool,            // its version does not match
    crashed: bool,             // the crash guard caught a crash
    stopped: bool,
    opens: nat,                // native opens so far, which number the databases
    born: map<Gen, DbId>)      // history: the database each generation was given to

  // ---- One request ----

  function Discarded(s: Loop): Loop {
    if s.crashed then s.(idb := None, path := None, generation := None, lock := false, crashed := false) else s
  }

  function Dropped(s: Loop): Loop {
    s.(idb := None, path := None, generation := None, lock := false)
  }

  predicate GenerationOk(expected: Option<Gen>, current: Option<Gen>) {
    expected.None? || current == expected
  }

  function HandleOpen(s: Loop, cancelled: bool, ok: bool, path: string): (Loop, Reply) {
    if cancelled then (s, Rejected)
    else if !ok then (s, FailedOpen)
    else if s.idb.Some? && s.generation.Some? then (s, Opened(s.generation.value))
    else if s.next >= MAX_GENERATION then
      (s.(idb := None, path := None, lock := false, opens := if s.idb.None? then s.opens + 1 else s.opens), Exhausted)
    else
      var db := if s.idb.Some? then s.idb.value else s.opens + 1;
      (s.(idb := Some(db), path := if s.idb.None? then Some(path) else s.path, generation := Some(s.next + 1), next := s.next + 1,
          lock := true, opens := if s.idb.None? then s.opens + 1 else s.opens, born := s.born[s.next + 1 := db]),
       Opened(s.next + 1))
  }

  function HandleRequest(s: Loop, e: Event): (Loop, Reply) {
    match e.request
    case Open(ok, path) => HandleOpen(s, e.cancelled, ok, path)
    case Close(teardown) => if teardown then (Dropped(s), ClosedDb) else (s, CloseRefused)
    case CloseIf(g, teardown) =>
      if s.generation != Some(g) then (s, NotCurrent)
      else if teardown then (Dropped(s), ClosedDb) else (s, CloseRefused)
    case Bound(expected, crashes) =>
      if !GenerationOk(expected, s.generation) then (s, Replaced)
      else if crashes then (s.(crashed := true), Crashed) else (s, Served)
    case Shutdown => (s.(idb := None, lock := false, stopped := true), Stopped)
  }

  /** One turn of the loop: discard after a crash, initialize, reject on a version
      mismatch, then handle the request. */
  function Turn(s: Loop, e: Event): (Loop, Reply) {
    var s := Discarded(s);
    if !s.ready && (e.cancelled || !e.initOk) then (s, Rejected)
    else
      var s := if s.ready then s else s.(ready := true, mismatch := e.initMismatch);
      if s.mismatch then
        if e.request.Shutdown? then (s.(idb := None, lock := false, stopped := true), Stopped) else (s, Rejected)
      else HandleRequest(s, e)
  }

  /** State and replies after a sequence of requests; the loop ends at Shutdown. */
  function RunFrom(s: Loop, events: seq<Event>): (Loop, seq<Reply>)
    decreases |events|
  {
    if events == [] || s.stopped then (s, [])
    else
      var (s1, reply) := Turn(s, events[0]);
      var (s2, replies) := RunFrom(s1, events[1..]);
      (s2, [reply] + replies)
  }

  class IdaLoop {
    var idb: Option<DbId>
    var path: Option<string>
    var generation: Option<Gen>
    var next: nat
    var lock: bool
    var ready: bool
    var mismatch: bool
    var crashed: bool
    var stopped: bool
    var opens: nat
    ghost var born: map<Gen, DbId>

    ghost function View(): Loop
      reads this
    {
      Loop(idb, path, generation, next, lock, ready, mismatch, crashed, stopped, opens, born)
    }

    constructor (ready: bool, mismatch: bool)
      ensures View() == Loop(None, None, None, 0, false, ready, mismatch, false, false, 0, map[])
    {
      idb, path, generation := None, None, None;
      next, opens := 0, 0;
      lock, crashed, stopped := false, false, false;
      this.ready, this.mismatch := ready, mismatch;
      born := map[];
    }

    method OpenDatabase(cancelled: bool, ok: bool, target: string) returns (reply: Reply)
      modifies this
      ensures (View(), reply) == HandleOpen(old(View()), cancelled, ok, target)
    {
      if cancelled {
        return Rejected;
      }
      var hadOpenDatabase := idb.Some?;
      if !ok {
        return FailedOpen;
      }
      // The native open succeeded: it made a database unless one was open.
      if !hadOpenDatabase {
        opens := opens + 1;
        idb := Some(opens);
        lock := true;
      }
      if generation.Some? && hadOpenDatabase {
        return Opened(generation.value);
      }
      if next >= MAX_GENERATION {
        idb, path, lock := None, None, false;
        return Exhausted;
      }
      next := next + 1;
      generation := Some(next);
      lock := true;
      born := born[next := idb.value];
      if !hadOpenDatabase {
        path := Some(target);
      }
      reply := Opened(next);
    }

    method TakeTurn(e: Event) returns (reply: Reply)
      modifies this
      ensures (View(), reply) == Turn(old(View()), e)
    {
      if crashed {
        idb, path, generation, lock := None, None, None, false;
        crashed := false;
      }
      if !ready {
        if e.cancelled || !e.initOk {
          return Rejected;
        }
        ready := true;
        mismatch := e.initMismatch;
      }
      if mismatch {
        if e.request.Shutdown? {
          idb, lock, stopped := None, false, true;
          return Stopped;
        }
        return Rejected;
      }
      reply := Handle(e);
    }

    method Handle(e: Event) returns (reply: Reply)
      modifies this
      ensures (View(), reply) == HandleRequest(old(View()), e)
    {
      match e.request {
        case Open(ok, target) => reply := OpenDatabase(e.cancelled, ok, target);
        case Close(teardown) =>
          if !teardown {
            return CloseRefused;
          }
          idb, path, generation, lock := None, None, None, false;
          reply := ClosedDb;
        case CloseIf(g, teardown) =>
          if generation != Some(g) {
            return NotCurrent;
          }
          if !teardown {
            return CloseRefused;
          }
          idb, path, generation, lock := None, None, None, false;
          reply := ClosedDb;
        case Bound(expected, crashes) =>
          if expected.Some? && generation != expected {
            return Replaced;
          }
          if crashes {
            crashed := true;
            return Crashed;
          }
          reply := Served;
        case Shutdown =>
          idb, lock, stopped := None, false, true;
          reply := Stopped;
      }
    }

    /** `run_ida_loop` over the requests it receives. */
    method Run(events: seq<Event>) returns (replies: seq<Reply>)
      modifies this
      ensures (View(), replies) == RunFrom(old(View()), events)
    {
      replies := [];
      var i := 0;
      assert events[0..] == events;
      ghost var all := RunFrom(View(), events);
      assert [] + all.1 == all.1;
      while i < |events| && !stopped
        invariant 0 <= i <= |events|
        invariant RunFrom(old(View()), events) == (RunFrom(View(), events[i..]).0, replies + RunFrom(View(), events[i..]).1)
      {
        ghost var before := View();
        assert events[i..][1..] == events[i + 1..];
        var reply := TakeTurn(events[i]);
        ghost var rest := RunFrom(View(), events[i + 1..]);
        assert RunFrom(before, events[i..]) == (rest.0, [reply] + rest.1);
        assert replies + ([reply] + rest.1) == (replies + [reply]) + rest.1;
        replies := replies + [reply];
        i := i + 1;
      }
      assert replies + [] == replies;
    }
  }

  // ---- What every run keeps ----

  /** Database, path, generation and lock come and go together; the generation
      belongs to the database it was given to, and none above `next` was given out. */
  ghost predicate Inv(s: Loop) {
    Coherent(s) && History(s.born, s.next, s.opens)
  }

  ghost predicate Coherent(s: Loop) {
    !s.stopped ==>
      && (s.idb.Some? <==> s.generation.Some?) && (s.idb.Some? <==> s.lock) && (s.idb.Some? <==> s.path.Some?)
      && (s.generation.Some? ==> s.generation.value in s.born && s.idb == Some(s.born[s.generation.value]))
  }

  ghost predicate History(born: map<Gen, DbId>, next: nat, opens: nat) {
    && (forall g :: g in born ==> 1 <= g <= next && born[g] <= opens)
    && (forall g, h :: g in born && h in born && g != h ==> born[g] != born[h])
  }

  /** Generations only go up and stay with their database. */
  ghost predicate Extends(s: Loop, s1: Loop) {
    && s.next <= s1.next
    && (forall g :: g in s.born ==> g in s1.born && s1.born[g] == s.born[g])
    && (forall g :: g in s1.born && g !in s.born ==> s.next < g)
  }

  lemma OpenKeeps(s: Loop, cancelled: bool, ok: bool, path: string)
    requires Inv(s) && !s.stopped
    ensures Inv(HandleOpen(s, cancelled, ok, path).0) && Extends(s, HandleOpen(s, cancelled, ok, path).0)
  {
  }

  lemma RequestKeeps(s: Loop, e: Event)
    requires Inv(s) && !s.stopped
    ensures Inv(HandleRequest(s, e).0) && Extends(s, HandleRequest(s, e).0)
  {
    match e.request
    case Open(ok, path) => OpenKeeps(s, e.cancelled, ok, path);
    case _ => assert HandleRequest(s, e).0.born == s.born;
  }

  lemma TurnKeeps(s: Loop, e: Event)
    requires Inv(s) && !s.stopped
    ensures Inv(Turn(s, e).0) && Extends(s, Turn(s, e).0)
  {
    var s1 := Discarded(s);
    RequestKeeps(s1.(ready := true), e);
    RequestKeeps(s1.(ready := true, mismatch := false), e);
  }

  /** The successive states of the loop. */
  ghost predicate Trace(states: seq<Loop>, events: seq<Event>) {
    && |states| == |events| + 1
    && states[0] == Loop(None, None, None, 0, false, states[0].ready, states[0].mismatch, false, false, 0, map[])
    && (forall i {:trigger TurnAt(states, events, i)} :: TurnAt(states, events, i))
  }

  ghost predicate TurnAt(states: seq<Loop>, events: seq<Event>, i: int) {
    0 <= i < |events| && i + 1 < |states| ==> !states[i].stopped && states[i + 1] == Turn(states[i], events[i]).0
  }

  function ReplyAt(states: seq<Loop>, events: seq<Event>, i: nat): Reply
    requires i < |events| && i < |states|
  {
    Turn(states[i], events[i]).1
  }

  /** The loop's replies and final state are those of the trace. */
  lemma {:induction false} RunFollowsTrace(states: seq<Loop>, events: seq<Event>, i: nat)
    requires Trace(states, events) && i <= |events|
    ensures var r := RunFrom(states[i], events[i..]);
            && r.0 == states[|events|] && |r.1| == |events| - i
            && forall k :: i <= k < |events| ==> r.1[k - i] == ReplyAt(states, events, k)
    decreases |events| - i
  {
    if i < |events| {
      assert TurnAt(states, events, i) && events[i..][1..] == events[i + 1..];
      RunFollowsTrace(states, events, i + 1);
    }
  }

  lemma {:induction false} TraceKeeps(states: seq<Loop>, events: seq<Event>, i: nat)
    requires Trace(states, events) && i < |states|
    ensures Inv(states[i])
  {
    if i > 0 {
      TraceKeeps(states, events, i - 1);
      assert TurnAt(states, events, i - 1);
      TurnKeeps(states[i - 1], events[i - 1]);
    }
  }

  lemma {:induction false} TraceExtends(states: seq<Loop>, events: seq<Event>, i: nat, j: nat)
    requires Trace(states, events) && i <= j < |states|
    ensures Extends(states[i], states[j])
    decreases j
  {
    if i < j {
      TraceExtends(states, events, i, j - 1);
      TraceKeeps(states, events, j - 1);
      assert TurnAt(states, events, j - 1);
      TurnKeeps(states[j - 1], events[j - 1]);
    }
  }

  /** An open reports the generation of the database that is open afterwards; one
      that had to open the database reports a generation larger than all before. */
  lemma OpenReportsItsDatabase(states: seq<Loop>, events: seq<Event>, i: nat)
    requires Trace(states, events) && i < |events| && ReplyAt(states, events, i).Opened?
    ensures var g, s, s1 := ReplyAt(states, events, i).g, Discarded(states[i]), states[i + 1];
            && s1.generation == Some(g) && g in s1.born && s1.idb == Some(s1.born[g])
            && (if s.idb.Some? then s1.idb == s.idb && s1.generation == s.generation
                else g == s.next + 1 && g !in states[i].born && (forall h :: h in states[i].born ==> h < g))
  {
    TraceKeeps(states, events, i);
    assert TurnAt(states, events, i);
    TurnKeeps(states[i], events[i]);
  }

  /** Generations are never reused: two opens that report the same generation
      report the same database, which was never closed in between. */
  lemma SameGenerationSameDatabase(states: seq<Loop>, events: seq<Event>, i: nat, j: nat)
    requires Trace(states, events) && i <= j < |events|
    requires ReplyAt(states, events, i).Opened? && ReplyAt(states, events, j) == ReplyAt(states, events, i)
    ensures states[i + 1].idb.Some? && states[j + 1].idb == states[i + 1].idb
  {
    OpenReportsItsDatabase(states, events, i);
    OpenReportsItsDatabase(states, events, j);
    TraceExtends(states, events, i + 1, j + 1);
  }

  /** A conditional close or a bound request takes effect only on the very
      database whose open returned that generation. */
  lemma GenerationGates(states: seq<Loop>, events: seq<Event>, i: nat, j: nat)
    requires Trace(states, events) && i < j < |events| && ReplyAt(states, events, i).Opened?
    ensures var g, e, r := ReplyAt(states, events, i).g, events[j].request, ReplyAt(states, events, j);
            (e.CloseIf? && e.generation == g && r.ClosedDb?) || (e.Bound? && e.expected == Some(g) && (r.Served? || r.Crashed?)) ==>
              && !states[j].crashed && states[i + 1].idb.Some? && states[j].idb == states[i + 1].idb
              && states[j].generation == Some(g)
  {
    OpenReportsItsDatabase(states, events, i);
    TraceExtends(states, events, i + 1, j);
    TraceKeeps(states, events, j);
    assert TurnAt(states, events, j);
  }

  lemma CrashLeaves(s: Loop, e: Event)
    requires Turn(s, e).1.Crashed?
    ensures var s1 := Turn(s, e).0; s1.crashed && s1.ready && !s1.mismatch && s1.next == s.next
  {
  }

  lemma AfterCrash(s: Loop, e: Event)
    requires s.crashed && s.ready && !s.mismatch
    ensures var r := Turn(s, e).1;
            && (e.request.Bound? && e.request.expected.Some? ==> r.Replaced?)
            && (e.request.CloseIf? ==> r.NotCurrent?)
            && (r.Opened? ==> r.g == s.next + 1)
  {
  }

  /** After a crash the next request finds no database, generation, path or lock:
      anything bound to a generation is refused, a conditional close does nothing,
      and an open must open anew. */
  lemma CrashForgets(states: seq<Loop>, events: seq<Event>, i: nat)
    requires Trace(states, events) && i + 1 < |events| && ReplyAt(states, events, i).Crashed?
    ensures var s, e, r := Discarded(states[i + 1]), events[i + 1].request, ReplyAt(states, events, i + 1);
            && states[i + 1].crashed && s.idb.None? && s.generation.None? && s.path.None? && !s.lock
            && (e.Bound? && e.expected.Some? ==> r.Replaced?)
            && (e.CloseIf? ==> r.NotCurrent?)
            && (r.Opened? ==> r.g == states[i].next + 1)
  {
    assert TurnAt(states, events, i);
    CrashLeaves(states[i], events[i]);
    AfterCrash(states[i + 1], events[i + 1]);
  }

  // ---- What each reply says about the state ----

  predicate NothingOpen(s: Loop) {
    s.idb.None? && s.path.None? && s.generation.None? && !s.lock
  }

  predicate SameDatabase(s: Loop, s1: Loop) {
    s1.idb == s.idb && s1.path == s.path && s1.generation == s.generation && s1.lock == s.lock && s1.next == s.next
  }

  /** The loop is initialized and the library matches. */
  predicate Working(s: Loop) {
    s.ready && !s.mismatch && !s.crashed && !s.stopped
  }

  lemma TurnEffect(s: Loop, e: Event)
    requires Inv(s) && !s.stopped
    ensures var s0, s1, r := Discarded(s), Turn(s, e).0, Turn(s, e).1;
            && (r.ClosedDb? ==> NothingOpen(s1))
            && (r.CloseRefused? || r.NotCurrent? || r.Served? || r.Crashed? || r.Replaced? || r.Rejected? || r.FailedOpen? ==> SameDatabase(s0, s1))
            && (r.Stopped? ==> s1.idb.None? && !s1.lock && s1.stopped)
            && (s1.stopped <==> r.Stopped?) && (s1.crashed <==> r.Crashed?)
            && (r.Opened? && s0.idb.Some? ==> SameDatabase(s0, s1))
            && (r.Opened? && s0.idb.None? ==> e.request.Open? && s1.path == Some(e.request.path) && s1.lock && s1.idb == Some(s0.opens + 1))
            && (r.Exhausted? ==> s0.next >= MAX_GENERATION && s1.idb.None? && !s1.lock && s1.path.None?)
  {
  }

  /** What every reply means: a close that is confirmed leaves no database, path,
      generation or lock; a refusal, a stale or rejected request, a served or crashed one
      and a failed open leave all of them as they were; a shutdown closes and ends the loop;
      an open that had to open has the requested path, a lock and a new database. */
  lemma RepliesTellTheTruth(states: seq<Loop>, events: seq<Event>, i: nat)
    requires Trace(states, events) && i < |events|
    ensures var s0, s1, r := Discarded(states[i]), states[i + 1], ReplyAt(states, events, i);
            && (r.ClosedDb? ==> NothingOpen(s1))
            && (r.CloseRefused? || r.NotCurrent? || r.Served? || r.Crashed? || r.Replaced? || r.Rejected? || r.FailedOpen? ==> SameDatabase(s0, s1))
            && (r.Stopped? ==> s1.idb.None? && !s1.lock && s1.stopped)
            && (r.Opened? && s0.idb.Some? ==> SameDatabase(s0, s1))
            && (r.Opened? && s0.idb.None? ==>
                  events[i].request.Open? && s1.path == Some(events[i].request.path) && s1.lock && s1.idb == Some(s0.opens + 1))
  {
    TraceKeeps(states, events, i);
    assert TurnAt(states, events, i);
    TurnEffect(states[i], events[i]);
  }

  /** Which requests are answered how, while the loop works: a close succeeds exactly
      when the teardown completes, a conditional one only on its own generation, and a
      bound request is served or crashes exactly on its own generation. */
  lemma RequestsAreAnswered(states: seq<Loop>, events: seq<Event>, i: nat)
    requires Trace(states, events) && i < |events| && Working(states[i])
    ensures var s, q, r := states[i], events[i].request, ReplyAt(states, events, i);
            match q
            case Close(teardown) => if teardown then r.ClosedDb? else r.CloseRefused?
            case CloseIf(g, teardown) =>
              if s.generation != Some(g) then r.NotCurrent? else if teardown then r.ClosedDb? else r.CloseRefused?
            case Bound(expected, crashes) =>
              if expected.Some? && s.generation != expected then r.Replaced? else if crashes then r.Crashed? else r.Served?
            case Open(ok, path) =>
              if events[i].cancelled then r.Rejected? else if !ok then r.FailedOpen?
              else r.Opened? || (r.Exhausted? && s.idb.None? && s.next >= MAX_GENERATION)
            case Shutdown => r.Stopped?
  {
    TraceKeeps(states, events, i);
    assert TurnAt(states, events, i);
  }

  /** Before the library is initialized a request initializes it or is rejected; under a
      version mismatch everything but a shutdown is rejected. */
  lemma NotWorkingRejects(states: seq<Loop>, events: seq<Event>, i: nat)
    requires Trace(states, events) && i < |events|
    ensures var s, e, r := states[i], events[i], ReplyAt(states, events, i);
            && (!s.ready && (e.cancelled || !e.initOk) ==> r.Rejected? && !states[i + 1].ready)
            && (!s.ready && !e.cancelled && e.initOk ==> states[i + 1].ready && states[i + 1].mismatch == e.initMismatch)
            && (s.ready ==> states[i + 1].ready && states[i + 1].mismatch == s.mismatch)
            && (states[i + 1].ready && states[i + 1].mismatch ==> if e.request.Shutdown? then r.Stopped? else r.Rejected?)
  {
    assert TurnAt(states, events, i);
  }

  lemma {:induction false} LaterGenerations(states: seq<Loop>, events: seq<Event>, i: nat, j: nat)
    requires Trace(states, events) && i <= j < |states| && states[i].generation.None?
    ensures states[j].generation.Some? ==> states[i].next < states[j].generation.value
    decreases j
  {
    if i < j {
      LaterGenerations(states, events, i, j - 1);
      TraceExtends(states, events, i, j - 1);
      TraceKeeps(states, events, j - 1);
      assert TurnAt(states, events, j - 1);
      NextGeneration(states[j - 1], events[j - 1]);
    }
  }

  lemma NextGeneration(s: Loop, e: Event)
    requires Inv(s) && !s.stopped
    ensures var g := Turn(s, e).0.generation; g.None? || g == s.generation || g == Some(s.next + 1)
  {
  }

  /** A closed generation is closed for good: after a confirmed close no request bound
      to the generation that was open is served, no conditional close of it takes effect,
      and every later open reports a larger generation. */
  lemma ClosedForGood(states: seq<Loop>, events: seq<Event>, i: nat, j: nat, g: Gen)
    requires Trace(states, events) && i < j < |events| && ReplyAt(states, events, i).ClosedDb? && states[i].generation == Some(g)
    ensures var q, r := events[j].request, ReplyAt(states, events, j);
            && (q.Bound? && q.expected == Some(g) ==> !r.Served? && !r.Crashed?)
            && (q.CloseIf? && q.generation == g ==> !r.ClosedDb?)
            && (r.Opened? ==> r.g > g)
  {
    GoneSince(states, events, i, j, g);
    Gated(states[j], events[j], g);
    if ReplyAt(states, events, j).Opened? { OpenReportsItsDatabase(states, events, j); }
  }

  lemma GoneSince(states: seq<Loop>, events: seq<Event>, i: nat, j: nat, g: Gen)
    requires Trace(states, events) && i < j < |events| && ReplyAt(states, events, i).ClosedDb? && states[i].generation == Some(g)
    ensures g <= states[j].next && (states[j].generation.Some? ==> g < states[j].generation.value)
  {
    TraceKeeps(states, events, i);
    assert TurnAt(states, events, i);
    RepliesTellTheTruth(states, events, i);
    LaterGenerations(states, events, i + 1, j);
    TraceExtends(states, events, i, i + 1);
    TraceExtends(states, events, i + 1, j);
  }

  lemma Gated(s: Loop, e: Event, g: Gen)
    requires s.generation != Some(g)
    ensures var r := Turn(s, e).1;
            && (e.request.Bound? && e.request.expected == Some(g) ==> !r.Served? && !r.Crashed?)
            && (e.request.CloseIf? && e.request.generation == g ==> !r.ClosedDb?)
  {
  }
}
