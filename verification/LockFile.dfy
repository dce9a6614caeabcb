/** The lock file of an open database: a path, the inode it names, the advisory
    lock on that inode and the pid written in it. Processes open, lock, check and
    unlink in separate steps. */
module LockFile {
  import opened Wrappers

  type Path = string
  type Ino = nat
  type Pid = nat

  datatype Purpose = Acquire | Reclaim(expected: Option<Pid>)

  datatype Stage =
    | Opened       // the descriptor is open, not locked
    | Locked       // the advisory lock is held, nothing checked or written yet
    | Truncated    // an acquirer cleared the old record
    | Matched      // a reclaimer read the pid it expected
    | Held         // an McpLock exists
    | Confirmed    // the path was seen to name the locked file; unlink comes next
    | Spent        // unlinked or not to be unlinked; the descriptor is still open

  datatype Actor = Actor(path: Path, ino: Ino, purpose: Purpose, stage: Stage)
  {
    predicate HasLock() { !stage.Opened? }
  }

  datatype State = State(
    dir: map<Path, Ino>,
    locks: map<Ino, Pid>,
    records: map<Ino, Option<Pid>>,  // the pid a lock file records, if readable
    actors: map<Pid, Actor>)         // one operation per process

  datatype Step =
    | Open(p: Pid, path: Path, ino: Ino)
    | OpenExisting(p: Pid, path: Path, expected: Option<Pid>)
    | TryLock(p: Pid)
    | Truncate(p: Pid)
    | WritePid(p: Pid)
    | ReadPid(p: Pid)
    | Recheck(p: Pid)
    | Check(p: Pid)
    | Unlink(p: Pid)
    | Close(p: Pid)       // also the exit of the process, at any stage

  predicate In(s: State, p: Pid, stage: Stage) {
    p in s.actors && s.actors[p].stage == stage && s.actors[p].ino in s.records
  }

  predicate Enabled(s: State, a: Step) {
    match a
    case Open(p, path, ino) => p !in s.actors && (if path in s.dir then ino == s.dir[path] else ino !in s.records)
    case OpenExisting(p, path, _) => p !in s.actors && path in s.dir
    case TryLock(p) => In(s, p, Opened)
    case Truncate(p) => In(s, p, Locked) && s.actors[p].purpose.Acquire?
    case WritePid(p) => In(s, p, Truncated)
    case ReadPid(p) => In(s, p, Locked) && s.actors[p].purpose.Reclaim?
    case Recheck(p) => In(s, p, Matched)
    case Check(p) => In(s, p, Held)
    case Unlink(p) => In(s, p, Confirmed)
    case Close(p) => p in s.actors
  }

  /** `lock_path_names_file`. */
  predicate Names(s: State, k: Actor) {
    k.path in s.dir && s.dir[k.path] == k.ino
  }

  function To(s: State, p: Pid, stage: Stage): State
    requires p in s.actors
  {
    s.(actors := s.actors[p := s.actors[p].(stage := stage)])
  }

  function Closed(s: State, p: Pid): State
    requires p in s.actors
  {
    s.(actors := s.actors - {p}, locks := if s.actors[p].HasLock() then s.locks - {s.actors[p].ino} else s.locks)
  }

  function Apply(s: State, a: Step): State
    requires Enabled(s, a)
  {
    match a
    case Open(p, path, ino) =>
      s.(dir := s.dir[path := ino],
         records := if ino in s.records then s.records else s.records[ino := None],
         actors := s.actors[p := Actor(path, ino, Acquire, Opened)])
    case OpenExisting(p, path, expected) => s.(actors := s.actors[p := Actor(path, s.dir[path], Reclaim(expected), Opened)])
    case TryLock(p) =>
      var ino := s.actors[p].ino;
      if ino in s.locks then Closed(s, p) else To(s.(locks := s.locks[ino := p]), p, Locked)
    case Truncate(p) => To(s.(records := s.records[s.actors[p].ino := None]), p, Truncated)
    case WritePid(p) => To(s.(records := s.records[s.actors[p].ino := Some(p)]), p, Held)
    case ReadPid(p) =>
      if s.records[s.actors[p].ino] == s.actors[p].purpose.expected then To(s, p, Matched) else Closed(s, p)
    case Recheck(p) => if Names(s, s.actors[p]) then To(s, p, Held) else Closed(s, p)
    case Check(p) => To(s, p, if Names(s, s.actors[p]) then Confirmed else Spent)
    case Unlink(p) => To(s.(dir := s.dir - {s.actors[p].path}), p, Spent)
    case Close(p) => Closed(s, p)
  }

  // ---- The invariant ----

  ghost predicate ActorOk(s: State, p: Pid, k: Actor) {
    && k.ino in s.records
    && (k.HasLock() <==> k.ino in s.locks && s.locks[k.ino] == p)
    && (k.stage.Confirmed? ==> Names(s, k))
    && (k.purpose.Reclaim? ==> !k.stage.Truncated?)
    && (k.purpose.Acquire? ==> !k.stage.Matched?)
    && (k.purpose.Reclaim? && (k.stage.Matched? || k.stage.Held? || k.stage.Confirmed?) ==>
          s.records[k.ino] == k.purpose.expected)
    && (k.purpose.Acquire? && (k.stage.Held? || k.stage.Confirmed?) ==> s.records[k.ino] == Some(p))
  }

  ghost predicate ActorAt(s: State, p: Pid) {
    p in s.actors ==> ActorOk(s, p, s.actors[p])
  }

  ghost predicate LockAt(s: State, ino: Ino) {
    ino in s.locks ==> s.locks[ino] in s.actors && s.actors[s.locks[ino]].ino == ino && s.actors[s.locks[ino]].HasLock()
  }

  ghost predicate PathAt(s: State, path: Path) {
    path in s.dir ==> s.dir[path] in s.records
  }

  ghost predicate Inv(s: State) {
    && (forall p {:trigger ActorAt(s, p)} :: ActorAt(s, p))
    && (forall ino {:trigger LockAt(s, ino)} :: LockAt(s, ino))
    && (forall path {:trigger PathAt(s, path)} :: PathAt(s, path))
  }

  /** The process holds the lock on the inode that `path` names now. */
  ghost predicate Owns(s: State, p: Pid, path: Path) {
    path in s.dir && s.dir[path] in s.locks && s.locks[s.dir[path]] == p
  }

  lemma StepKeeps(s: State, a: Step)
    requires Inv(s) && Enabled(s, a)
    ensures Inv(Apply(s, a))
  {
    var s1 := Apply(s, a);
    assert ActorAt(s, a.p);
    forall q ensures ActorAt(s1, q) {
      assert ActorAt(s, q);
      if q in s1.actors { assert LockAt(s, s1.actors[q].ino) && PathAt(s, s1.actors[q].path); }
    }
    forall ino ensures LockAt(s1, ino) { assert LockAt(s, ino); }
    forall path ensures PathAt(s1, path) { assert PathAt(s, path); }
  }

  /** No process but the holder itself unbinds or rebinds a locked path. */
  lemma StepSparesHolder(s: State, a: Step, h: Pid, path: Path)
    requires Inv(s) && Enabled(s, a) && Owns(s, h, path) && a.p != h
    ensures Owns(Apply(s, a), h, path) && Apply(s, a).dir[path] == s.dir[path]
  {
    assert ActorAt(s, a.p) && LockAt(s, s.dir[path]);
  }

  // ---- Runs ----

  ghost predicate NextAt(states: seq<State>, steps: seq<Step>, i: int) {
    0 <= i < |steps| && i + 1 < |states| ==> Enabled(states[i], steps[i]) && states[i + 1] == Apply(states[i], steps[i])
  }

  /** A run starts with any lock files left behind and no process at work. */
  ghost predicate Init(s: State) {
    s.locks == map[] && s.actors == map[] && forall path :: path in s.dir ==> s.dir[path] in s.records
  }

  ghost predicate Run(states: seq<State>, steps: seq<Step>) {
    |states| == |steps| + 1 && Init(states[0]) && forall i {:trigger NextAt(states, steps, i)} :: NextAt(states, steps, i)
  }

  lemma {:induction false} RunKeeps(states: seq<State>, steps: seq<Step>, i: nat)
    requires Run(states, steps) && i < |states|
    ensures Inv(states[i])
  {
    if i > 0 {
      RunKeeps(states, steps, i - 1);
      assert NextAt(states, steps, i - 1);
      StepKeeps(states[i - 1], steps[i - 1]);
    }
  }

  /** The step is not the holder's own unlink or close. */
  ghost predicate Keeps(s: State, a: Step, h: Pid)
    requires Enabled(s, a)
  {
    a.p == h ==> !a.Unlink? && h in Apply(s, a).actors
  }

  lemma HolderStep(s: State, a: Step, h: Pid, path: Path)
    requires Inv(s) && Enabled(s, a) && Owns(s, h, path) && Keeps(s, a, h)
    ensures Owns(Apply(s, a), h, path) && Apply(s, a).dir[path] == s.dir[path]
  {
    assert ActorAt(s, a.p) && ActorAt(s, h) && LockAt(s, s.dir[path]);
    if a.p != h { StepSparesHolder(s, a, h, path); }
  }

  /** Lock-file safety: from the moment a process holds the lock on the inode its
      path names, the path names that inode until the process itself unlinks or
      closes it, whatever all others acquire, release, drop or reclaim. */
  lemma {:induction false} PathStaysBound(states: seq<State>, steps: seq<Step>, i: nat, j: nat, h: Pid, path: Path)
    requires Run(states, steps) && i <= j < |states| && Owns(states[i], h, path)
    requires forall k | i <= k < j :: steps[k].p == h ==> !steps[k].Unlink? && h in states[k + 1].actors
    ensures Owns(states[j], h, path) && states[j].dir[path] == states[i].dir[path]
    decreases j
  {
    if i < j {
      PathStaysBound(states, steps, i, j - 1, h, path);
      RunKeeps(states, steps, j - 1);
      assert NextAt(states, steps, j - 1);
      HolderStep(states[j - 1], steps[j - 1], h, path);
    }
  }

  /** Check-then-unlink acts atomically: at the unlink the path still names the
      inode the process has locked, so it removes exactly that file; one removed after
      a reclaim still records the expected pid, one removed by its owner its own. */
  lemma UnlinksOnlyItsOwn(states: seq<State>, steps: seq<Step>, i: nat, path: Path)
    requires Run(states, steps) && i < |steps| && path in states[i].dir && path !in states[i + 1].dir
    ensures steps[i].Unlink? && steps[i].p in states[i].actors
    ensures var s, k := states[i], states[i].actors[steps[i].p];
            && k.path == path && s.dir[path] == k.ino && k.ino in s.locks && s.locks[k.ino] == steps[i].p
            && k.ino in s.records
            && s.records[k.ino] == (if k.purpose.Reclaim? then k.purpose.expected else Some(steps[i].p))
  {
    RunKeeps(states, steps, i);
    assert NextAt(states, steps, i);
    assert ActorAt(states[i], steps[i].p);
  }

  /** A path never comes to name another file while it names one. */
  lemma {:induction false} NeverRebound(states: seq<State>, steps: seq<Step>, i: nat, path: Path)
    requires Run(states, steps) && i < |steps| && path in states[i].dir && path in states[i + 1].dir
    ensures states[i + 1].dir[path] == states[i].dir[path]
  {
    assert NextAt(states, steps, i);
  }

  /** A reclaim ends with a lock only on the file that its path names at that moment,
      with the expected record; a release that finds its path naming its file unlinks
      it, and one that does not leaves the directory alone. */
  lemma ChecksDecide(states: seq<State>, steps: seq<Step>, i: nat)
    requires Run(states, steps) && i < |steps| && (steps[i].Recheck? || steps[i].Check? || steps[i].Unlink?)
    ensures steps[i].p in states[i].actors
    ensures var s, s1, p, k := states[i], states[i + 1], steps[i].p, states[i].actors[steps[i].p];
            var named := k.path in s.dir && s.dir[k.path] == k.ino;
            && (steps[i].Recheck? ==>
                  && (p in s1.actors <==> named)
                  && (named ==> s1.actors[p].stage.Held? && k.purpose.Reclaim? && k.ino in s1.records && s1.records[k.ino] == k.purpose.expected))
            && (steps[i].Check? ==> p in s1.actors && s1.actors[p].stage == (if named then Confirmed else Spent) && s1.dir == s.dir)
            && (steps[i].Unlink? ==> named && s1.dir == s.dir - {k.path})
  {
    RunKeeps(states, steps, i);
    assert NextAt(states, steps, i);
    assert ActorAt(states[i], steps[i].p);
  }

  // ---- The operations as code ----

  /** Truncating a record and writing it leaves what was written last. */
  lemma RecordTwice(records: map<Ino, Option<Pid>>, ino: Ino, p: Pid)
    ensures records[ino := None][ino := Some(p)] == records[ino := Some(p)]
    ensures records[ino := None][ino := None][ino := Some(p)] == records[ino := Some(p)]
  {
  }

  /** One host with its lock files. Each operation runs here without interference
      and does what the machine's steps do in a row. */
  class Host {
    var dir: map<Path, Ino>
    var locks: map<Ino, Pid>
    var records: map<Ino, Option<Pid>>
    var actors: map<Pid, Actor>

    ghost function View(): State
      reads this
    {
      State(dir, locks, records, actors)
    }

    /** `acquire_mcp_lock`: fails exactly when another process has the file locked,
        and then leaves everything but a newly created file as it was. */
    method AcquireLock(p: Pid, path: Path, ino: Ino) returns (ok: bool)
      requires Enabled(View(), Open(p, path, ino))
      modifies this
      ensures ok <==> ino !in old(locks)
      ensures ok ==> View() == State(old(dir)[path := ino], old(locks)[ino := p], old(records)[ino := Some(p)],
                                     old(actors)[p := Actor(path, ino, Acquire, Held)])
      ensures !ok ==> dir == old(dir)[path := ino] && locks == old(locks) && actors == old(actors)
                      && (ino in old(records) ==> records == old(records))
    {
      dir := dir[path := ino];
      if ino !in records {
        records := records[ino := None];
      }
      if ino in locks {
        return false;
      }
      locks := locks[ino := p];
      RecordTwice(old(records), ino, p);
      records := records[ino := None];
      records := records[ino := Some(p)];
      actors := actors[p := Actor(path, ino, Acquire, Held)];
      ok := true;
    }

    /** `reclaim_mcp_lock_path`: takes the lock only of an unlocked file that
        records exactly the expected pid. */
    method ReclaimLock(p: Pid, path: Path, expected: Option<Pid>) returns (ok: bool)
      requires Inv(View()) && p !in actors
      modifies this
      ensures ok <==> path in dir && dir[path] !in old(locks) && dir[path] in records && records[dir[path]] == expected
      ensures dir == old(dir) && records == old(records)
      ensures ok ==> locks == old(locks)[dir[path] := p] && actors == old(actors)[p := Actor(path, dir[path], Reclaim(expected), Held)]
      ensures !ok ==> View() == old(View())
    {
      if path !in dir {
        return false;
      }
      assert PathAt(View(), path);
      var ino := dir[path];
      if ino in locks || records[ino] != expected {
        return false;
      }
      locks := locks[ino := p];
      actors := actors[p := Actor(path, ino, Reclaim(expected), Held)];
      ok := true;
    }

    /** `release_mcp_lock` and `remove_mcp_lock_file`: the path goes only if it still
        names the locked file; the lock goes in any case. */
    method ReleaseLock(p: Pid)
      requires Inv(View()) && In(View(), p, Held)
      modifies this
      ensures var k := old(actors)[p];
              && dir == (if k.path in old(dir) && old(dir)[k.path] == k.ino then old(dir) - {k.path} else old(dir))
              && locks == old(locks) - {k.ino} && actors == old(actors) - {p} && records == old(records)
      ensures Inv(View())
    {
      ghost var s0 := View();
      ghost var s1 := Apply(s0, Check(p));
      StepKeeps(s0, Check(p));
      ghost var s2 := if s1.actors[p].stage.Confirmed? then Apply(s1, Unlink(p)) else s1;
      if s1.actors[p].stage.Confirmed? { StepKeeps(s1, Unlink(p)); }
      StepKeeps(s2, Close(p));
      var k := actors[p];
      if k.path in dir && dir[k.path] == k.ino {
        dir := dir - {k.path};
      }
      locks := locks - {k.ino};
      actors := actors - {p};
      assert View() == Apply(s2, Close(p));
    }
  }
}
