/** Publishing an extracted slice: any number of racing publishers write to files
    of their own and publish with a hard link, while others may create files but
    do not touch destinations. */
module SlicePublish {
  import opened Wrappers

  const CHUNK: nat := 64 * 1024

  // ---- The chunked comparison ----

  datatype Comparison = Equal | Differ | TooShort

  /** `slice_matches`: reads of any size up to the buffer, each at least one byte. */
  method SliceMatches(source: seq<Byte>, existing: seq<Byte>) returns (r: Comparison)
    ensures r.Equal? <==> source <= existing
    ensures r.TooShort? ==> |existing| < |source|
    ensures |existing| == |source| ==> (r.Equal? <==> source == existing) && (r.Differ? <==> source != existing)
  {
    var pos := 0;
    while pos < |source|
      invariant 0 <= pos <= |source| && pos <= |existing| && source[..pos] == existing[..pos]
    {
      var read :| 1 <= read <= CHUNK && pos + read <= |source|;
      if pos + read > |existing| {
        return TooShort;
      }
      var left, right := source[pos..pos + read], existing[pos..pos + read];
      if left != right {
        assert source[..pos + read][pos..] == left && existing[..pos + read][pos..] == right;
        return Differ;
      }
      assert source[..pos + read] == source[..pos] + left && existing[..pos + read] == existing[..pos] + right;
      pos := pos + read;
    }
    return Equal;
  }

  // ---- The protocol ----

  type Ino = nat
  type Tid = nat

  /** Temporary names carry a unique suffix, so no destination is one. */
  datatype Name = Target(path: string) | Partial(path: string, uuid: nat)

  datatype Outcome = Created | Reused | Refused

  datatype Temp = Temp(name: Name, ino: Ino)

  datatype Stage =
    | Inspecting
    | Creating
    | Writing(done: nat)
    | Linking
    | Checking                      // the destination exists: compare lengths
    | Opening
    | Comparing(ino: Ino, pos: nat)
    | Removing(outcome: Outcome)
    | Done(outcome: Outcome)

  datatype Publisher = Publisher(dest: string, want: seq<Byte>, temp: Option<Temp>, stage: Stage)

  datatype State = State(dir: map<Name, Ino>, files: map<Ino, seq<Byte>>, calls: map<Tid, Publisher>)

  datatype Step =
    | Begin(t: Tid, dest: string, want: seq<Byte>)
    | Inspect(t: Tid)
    | Create(t: Tid, uuid: nat, ino: Ino)
    | Write(t: Tid, n: nat)
    | WriteDone(t: Tid)
    | Link(t: Tid)
    | Stat(t: Tid)
    | OpenDest(t: Tid)
    | Compare(t: Tid, n: nat)
    | Remove(t: Tid)
    | Fail(t: Tid)                  // an I/O error at this stage
    | Crash(t: Tid)                 // the process goes away
    | Others(path: string, ino: Ino, content: seq<Byte>)

  function To(s: State, t: Tid, stage: Stage): State
    requires t in s.calls
  {
    s.(calls := s.calls[t := s.calls[t].(stage := stage)])
  }

  /** A call that holds a temporary file removes it before it returns. */
  function Finish(s: State, t: Tid, outcome: Outcome): State
    requires t in s.calls
  {
    To(s, t, if s.calls[t].temp.Some? then Removing(outcome) else Done(outcome))
  }

  predicate Enabled(s: State, a: Step) {
    match a
    case Begin(t, _, _) => t !in s.calls
    case Inspect(t) => t in s.calls && s.calls[t].stage.Inspecting?
    case Create(t, uuid, ino) =>
      && t in s.calls && s.calls[t].stage.Creating? && ino !in s.files
      && Partial(s.calls[t].dest, uuid) !in s.dir
    case Write(t, n) =>
      && t in s.calls && s.calls[t].stage.Writing? && s.calls[t].temp.Some? && s.calls[t].temp.value.ino in s.files
      && 1 <= n && s.calls[t].stage.done + n <= |s.calls[t].want|
    case WriteDone(t) => t in s.calls && s.calls[t].stage == Writing(|s.calls[t].want|)
    case Link(t) => t in s.calls && s.calls[t].stage.Linking? && s.calls[t].temp.Some?
    case Stat(t) => t in s.calls && s.calls[t].stage.Checking? && DestIn(s, t)
    case OpenDest(t) => t in s.calls && s.calls[t].stage.Opening? && DestIn(s, t)
    case Compare(t, n) =>
      && t in s.calls && s.calls[t].stage.Comparing? && s.calls[t].stage.ino in s.files
      && (if s.calls[t].stage.pos >= |s.calls[t].want| then n == 0
          else 1 <= n <= CHUNK && s.calls[t].stage.pos + n <= |s.calls[t].want|
               && s.calls[t].stage.pos + n <= |s.files[s.calls[t].stage.ino]|)
    case Remove(t) => t in s.calls && s.calls[t].stage.Removing? && s.calls[t].temp.Some?
    case Fail(t) => t in s.calls && !s.calls[t].stage.Removing? && !s.calls[t].stage.Done?
    case Crash(t) => t in s.calls && !s.calls[t].stage.Done?
    case Others(path, ino, _) => Target(path) !in s.dir && ino !in s.files
  }

  predicate DestIn(s: State, t: Tid)
    requires t in s.calls
  {
    Target(s.calls[t].dest) in s.dir && s.dir[Target(s.calls[t].dest)] in s.files
  }

  function Apply(s: State, a: Step): State
    requires Enabled(s, a)
  {
    match a
    case Begin(t, dest, want) => s.(calls := s.calls[t := Publisher(dest, want, None, Inspecting)])
    case Inspect(t) => To(s, t, if Target(s.calls[t].dest) in s.dir then Checking else Creating)
    case Create(t, uuid, ino) =>
      var name := Partial(s.calls[t].dest, uuid);
      State(s.dir[name := ino], s.files[ino := []], s.calls[t := s.calls[t].(temp := Some(Temp(name, ino)), stage := Writing(0))])
    case Write(t, n) =>
      var k := s.calls[t];
      var end := k.stage.done + n;
      To(s.(files := s.files[k.temp.value.ino := s.files[k.temp.value.ino] + k.want[k.stage.done..end]]), t, Writing(end))
    case WriteDone(t) => To(s, t, Linking)
    case Link(t) =>
      var k := s.calls[t];
      if Target(k.dest) in s.dir then To(s, t, Checking)
      else Finish(s.(dir := s.dir[Target(k.dest) := k.temp.value.ino]), t, Created)
    case Stat(t) =>
      if |s.files[s.dir[Target(s.calls[t].dest)]]| == |s.calls[t].want| then To(s, t, Opening) else Finish(s, t, Refused)
    case OpenDest(t) => To(s, t, Comparing(s.dir[Target(s.calls[t].dest)], 0))
    case Compare(t, n) =>
      var k := s.calls[t];
      var pos := k.stage.pos;
      if n == 0 then Finish(s, t, Reused)
      else if k.want[pos..pos + n] == s.files[k.stage.ino][pos..pos + n] then To(s, t, Comparing(k.stage.ino, pos + n))
      else Finish(s, t, Refused)
    case Remove(t) => To(s.(dir := s.dir - {s.calls[t].temp.value.name}), t, Done(s.calls[t].stage.outcome))
    case Fail(t) => Finish(s, t, Refused)
    case Crash(t) => s.(calls := s.calls - {t})
    case Others(path, ino, content) => s.(dir := s.dir[Target(path) := ino], files := s.files[ino := content])
  }

  // ---- The invariant ----

  ghost predicate NameAt(dir: map<Name, Ino>, files: map<Ino, seq<Byte>>, n: Name) {
    n in dir ==> dir[n] in files
  }

  /** What a call knows about the destination and its own file. */
  ghost predicate CallOk(dir: map<Name, Ino>, files: map<Ino, seq<Byte>>, k: Publisher) {
    var target := Target(k.dest);
    && (k.temp.Some? ==>
          && k.temp.value.ino in files && k.temp.value.name.Partial?
          && (!k.stage.Done? ==> k.temp.value.name in dir && dir[k.temp.value.name] == k.temp.value.ino))
    && (match k.stage
        case Inspecting => k.temp.None?
        case Creating => k.temp.None?
        case Writing(done) =>
          && k.temp.Some? && done <= |k.want| && files[k.temp.value.ino] == k.want[..done]
          && Unpublished(dir, k.temp.value.ino)
        case Linking => k.temp.Some? && files[k.temp.value.ino] == k.want && Unpublished(dir, k.temp.value.ino)
        case Checking => target in dir
        case Opening => target in dir && dir[target] in files && |files[dir[target]]| == |k.want|
        case Comparing(ino, pos) =>
          && target in dir && dir[target] == ino && ino in files && |files[ino]| == |k.want|
          && pos <= |k.want| && files[ino][..pos] == k.want[..pos]
        case Removing(outcome) => k.temp.Some? && OutcomeOk(dir, files, k, outcome)
        case Done(outcome) => OutcomeOk(dir, files, k, outcome))
  }

  ghost predicate OutcomeOk(dir: map<Name, Ino>, files: map<Ino, seq<Byte>>, k: Publisher, outcome: Outcome) {
    var target := Target(k.dest);
    && (outcome.Created? || outcome.Reused? ==> target in dir && dir[target] in files && files[dir[target]] == k.want)
    && (outcome.Created? ==> k.temp.Some? && dir[target] == k.temp.value.ino)
  }

  ghost predicate Unpublished(dir: map<Name, Ino>, ino: Ino) {
    forall n :: n in dir && n.Target? ==> dir[n] != ino
  }

  ghost predicate CallAt(dir: map<Name, Ino>, files: map<Ino, seq<Byte>>, calls: map<Tid, Publisher>, t: Tid) {
    t in calls ==> CallOk(dir, files, calls[t])
  }

  ghost predicate TempsApart(calls: map<Tid, Publisher>, t: Tid, u: Tid) {
    t in calls && u in calls && t != u && calls[t].temp.Some? && calls[u].temp.Some? ==>
      && calls[t].temp.value.ino != calls[u].temp.value.ino
      && (!calls[t].stage.Done? && !calls[u].stage.Done? ==> calls[t].temp.value.name != calls[u].temp.value.name)
  }

  ghost predicate Inv(s: State) {
    && (forall n {:trigger NameAt(s.dir, s.files, n)} :: NameAt(s.dir, s.files, n))
    && (forall t {:trigger CallAt(s.dir, s.files, s.calls, t)} :: CallAt(s.dir, s.files, s.calls, t))
    && (forall t, u {:trigger TempsApart(s.calls, t, u)} :: TempsApart(s.calls, t, u))
  }

  /** A published destination keeps its file, and that file its bytes. */
  ghost predicate Kept(s: State, s1: State, n: Name) {
    n.Target? && n in s.dir && s.dir[n] in s.files ==>
      n in s1.dir && s1.dir[n] == s.dir[n] && s.dir[n] in s1.files && s1.files[s.dir[n]] == s.files[s.dir[n]]
  }

  /** Steps that only move one call to a stage it may be in. */
  lemma MoveKeeps(s: State, t: Tid, k: Publisher)
    requires Inv(s) && CallOk(s.dir, s.files, k)
    requires k.temp.Some? ==> t in s.calls && s.calls[t].temp == k.temp && !s.calls[t].stage.Done?
    ensures Inv(s.(calls := s.calls[t := k]))
  {
    var calls := s.calls[t := k];
    forall u ensures CallAt(s.dir, s.files, calls, u) { assert CallAt(s.dir, s.files, s.calls, u); }
    forall u, v ensures TempsApart(calls, u, v) { assert TempsApart(s.calls, u, v); }
  }

  lemma CrashKeeps(s: State, t: Tid)
    requires Inv(s)
    ensures Inv(s.(calls := s.calls - {t}))
  {
    var calls := s.calls - {t};
    forall u ensures CallAt(s.dir, s.files, calls, u) { assert CallAt(s.dir, s.files, s.calls, u); }
    forall u, v ensures TempsApart(calls, u, v) { assert TempsApart(s.calls, u, v); }
  }

  lemma CreateKeeps(s: State, t: Tid, uuid: nat, ino: Ino)
    requires Inv(s) && Enabled(s, Create(t, uuid, ino))
    ensures Inv(Apply(s, Create(t, uuid, ino)))
  {
    var s1 := Apply(s, Create(t, uuid, ino));
    forall n ensures NameAt(s1.dir, s1.files, n) { assert NameAt(s.dir, s.files, n); }
    forall u ensures CallAt(s1.dir, s1.files, s1.calls, u) {
      assert CallAt(s.dir, s.files, s.calls, u);
      forall n | n in s.dir ensures s.dir[n] in s.files { assert NameAt(s.dir, s.files, n); }
    }
    forall u, v ensures TempsApart(s1.calls, u, v) {
      assert TempsApart(s.calls, u, v) && CallAt(s.dir, s.files, s.calls, u) && CallAt(s.dir, s.files, s.calls, v);
    }
  }

  lemma WriteKeeps(s: State, t: Tid, n: nat)
    requires Inv(s) && Enabled(s, Write(t, n))
    ensures Inv(Apply(s, Write(t, n)))
  {
    var s1 := Apply(s, Write(t, n));
    var k := s.calls[t];
    assert CallAt(s.dir, s.files, s.calls, t);
    forall m ensures NameAt(s1.dir, s1.files, m) { assert NameAt(s.dir, s.files, m); }
    forall u ensures CallAt(s1.dir, s1.files, s1.calls, u) {
      assert CallAt(s.dir, s.files, s.calls, u) && TempsApart(s.calls, t, u);
      assert k.want[..k.stage.done] + k.want[k.stage.done..k.stage.done + n] == k.want[..k.stage.done + n];
    }
    forall u, v ensures TempsApart(s1.calls, u, v) { assert TempsApart(s.calls, u, v); }
  }

  lemma PublishKeeps(s: State, t: Tid)
    requires Inv(s) && Enabled(s, Link(t)) && Target(s.calls[t].dest) !in s.dir
    ensures Inv(Apply(s, Link(t)))
  {
    var s1 := Apply(s, Link(t));
    assert CallAt(s.dir, s.files, s.calls, t);
    forall n ensures NameAt(s1.dir, s1.files, n) { assert NameAt(s.dir, s.files, n); }
    forall u ensures CallAt(s1.dir, s1.files, s1.calls, u) { assert CallAt(s.dir, s.files, s.calls, u) && TempsApart(s.calls, t, u); }
    forall u, v ensures TempsApart(s1.calls, u, v) { assert TempsApart(s.calls, u, v); }
  }

  lemma RemoveKeeps(s: State, t: Tid)
    requires Inv(s) && Enabled(s, Remove(t))
    ensures Inv(Apply(s, Remove(t)))
  {
    var s1 := Apply(s, Remove(t));
    assert CallAt(s.dir, s.files, s.calls, t);
    forall n ensures NameAt(s1.dir, s1.files, n) { assert NameAt(s.dir, s.files, n); }
    forall u ensures CallAt(s1.dir, s1.files, s1.calls, u) { assert CallAt(s.dir, s.files, s.calls, u) && TempsApart(s.calls, t, u); }
    forall u, v ensures TempsApart(s1.calls, u, v) { assert TempsApart(s.calls, u, v); }
  }

  lemma OthersKeeps(s: State, path: string, ino: Ino, content: seq<Byte>)
    requires Inv(s) && Enabled(s, Others(path, ino, content))
    ensures Inv(Apply(s, Others(path, ino, content)))
  {
    var s1 := Apply(s, Others(path, ino, content));
    forall n ensures NameAt(s1.dir, s1.files, n) { assert NameAt(s.dir, s.files, n); }
    forall u ensures CallAt(s1.dir, s1.files, s1.calls, u) { assert CallAt(s.dir, s.files, s.calls, u); }
  }

  lemma CompareKeeps(s: State, t: Tid, n: nat)
    requires Inv(s) && Enabled(s, Compare(t, n))
    ensures Inv(Apply(s, Compare(t, n)))
  {
    var k := s.calls[t];
    assert CallAt(s.dir, s.files, s.calls, t);
    var f, pos := s.files[k.stage.ino], k.stage.pos;
    if n > 0 {
      assert f[..pos + n] == f[..pos] + f[pos..pos + n];
      assert k.want[..pos + n] == k.want[..pos] + k.want[pos..pos + n];
    } else {
      assert f[..pos] == f && k.want[..pos] == k.want;
    }
    MoveKeeps(s, t, Apply(s, Compare(t, n)).calls[t]);
  }

  lemma StepKeeps(s: State, a: Step)
    requires Inv(s) && Enabled(s, a)
    ensures Inv(Apply(s, a))
  {
    match a
    case Begin(t, dest, want) => MoveKeeps(s, t, Publisher(dest, want, None, Inspecting));
    case Create(t, uuid, ino) => CreateKeeps(s, t, uuid, ino);
    case Write(t, n) => WriteKeeps(s, t, n);
    case Compare(t, n) => CompareKeeps(s, t, n);
    case Remove(t) => RemoveKeeps(s, t);
    case Crash(t) => CrashKeeps(s, t);
    case Others(path, ino, content) => OthersKeeps(s, path, ino, content);
    case Link(t) =>
      assert CallAt(s.dir, s.files, s.calls, t);
      if Target(s.calls[t].dest) in s.dir { MoveKeeps(s, t, Apply(s, a).calls[t]); } else { PublishKeeps(s, t); }
    case _ =>
      assert CallAt(s.dir, s.files, s.calls, a.t);
      MoveKeeps(s, a.t, Apply(s, a).calls[a.t]);
  }

  /** No step rebinds a destination or changes the bytes behind it. */
  lemma StepKept(s: State, a: Step, n: Name)
    requires Inv(s) && Enabled(s, a)
    ensures Kept(s, Apply(s, a), n)
  {
    match a
    case Write(t, _) => assert CallAt(s.dir, s.files, s.calls, t);
    case Remove(t) => assert CallAt(s.dir, s.files, s.calls, t);
    case Link(t) => assert CallAt(s.dir, s.files, s.calls, t);
    case _ =>
  }

  // ---- Runs ----

  ghost predicate NextAt(states: seq<State>, steps: seq<Step>, i: int) {
    0 <= i < |steps| && i + 1 < |states| ==> Enabled(states[i], steps[i]) && states[i + 1] == Apply(states[i], steps[i])
  }

  /** A run starts with any files under destination names and nobody publishing. */
  ghost predicate Init(s: State) {
    s.calls == map[] && (forall n :: n in s.dir ==> s.dir[n] in s.files)
  }

  ghost predicate Run(states: seq<State>, steps: seq<Step>) {
    |states| == |steps| + 1 && Init(states[0]) && forall i {:trigger NextAt(states, steps, i)} :: NextAt(states, steps, i)
  }

  lemma {:induction false} RunKeeps(states: seq<State>, steps: seq<Step>, i: nat)
    requires Run(states, steps) && i < |states|
    ensures Inv(states[i])
  {
    if i > 0 {
      RunKeeps(states, steps, i - 1);
      assert NextAt(states, steps, i - 1);
      StepKeeps(states[i - 1], steps[i - 1]);
    }
  }

  /** Once a destination exists, no publisher ever rebinds, writes or unlinks it. */
  lemma {:induction false} DestinationIsNeverTouched(states: seq<State>, steps: seq<Step>, i: nat, j: nat, n: Name)
    requires Run(states, steps) && i <= j < |states| && n.Target? && n in states[i].dir
    ensures states[i].dir[n] in states[i].files && n in states[j].dir && states[j].dir[n] == states[i].dir[n]
    ensures states[i].dir[n] in states[j].files && states[j].files[states[i].dir[n]] == states[i].files[states[i].dir[n]]
    decreases j
  {
    RunKeeps(states, steps, i);
    assert NameAt(states[i].dir, states[i].files, n);
    if i < j {
      DestinationIsNeverTouched(states, steps, i, j - 1, n);
      RunKeeps(states, steps, j - 1);
      assert NextAt(states, steps, j - 1);
      StepKept(states[j - 1], steps[j - 1], n);
    }
  }

  /** A call that returns Created or Reused leaves its caller's slice at the
      destination, for good. */
  lemma ReturnedSliceIsThere(states: seq<State>, steps: seq<Step>, i: nat, j: nat, t: Tid)
    requires Run(states, steps) && i <= j < |states| && t in states[i].calls
    requires states[i].calls[t].stage == Done(Created) || states[i].calls[t].stage == Done(Reused)
    ensures var n := Target(states[i].calls[t].dest);
            n in states[j].dir && states[j].dir[n] in states[j].files && states[j].files[states[j].dir[n]] == states[i].calls[t].want
  {
    RunKeeps(states, steps, i);
    assert CallAt(states[i].dir, states[i].files, states[i].calls, t);
    DestinationIsNeverTouched(states, steps, i, j, Target(states[i].calls[t].dest));
  }

  /** At most one publisher of a destination is told that it created it. */
  lemma CreatedOnce(states: seq<State>, steps: seq<Step>, i: nat, t: Tid, u: Tid)
    requires Run(states, steps) && i < |states| && t in states[i].calls && u in states[i].calls
    requires states[i].calls[t].stage == Done(Created) && states[i].calls[u].stage == Done(Created)
    requires states[i].calls[t].dest == states[i].calls[u].dest
    ensures t == u
  {
    RunKeeps(states, steps, i);
    var s := states[i];
    assert CallAt(s.dir, s.files, s.calls, t) && CallAt(s.dir, s.files, s.calls, u) && TempsApart(s.calls, t, u);
  }

  /** A call removes nothing but the temporary file that it created. */
  lemma RemovesOnlyItsOwn(states: seq<State>, steps: seq<Step>, i: nat, n: Name)
    requires Run(states, steps) && i < |steps| && n in states[i].dir && n !in states[i + 1].dir
    ensures steps[i].Remove? && steps[i].t in states[i].calls
    ensures var k := states[i].calls[steps[i].t];
            k.temp.Some? && n == k.temp.value.name && n.Partial? && states[i].dir[n] == k.temp.value.ino
    ensures forall u :: u in states[i].calls && u != steps[i].t && states[i].calls[u].temp.Some? ==>
              states[i].calls[u].temp.value.ino != states[i].dir[n]
  {
    RunKeeps(states, steps, i);
    assert NextAt(states, steps, i);
    var s, t := states[i], steps[i].t;
    assert CallAt(s.dir, s.files, s.calls, t);
    forall u | u in s.calls && u != t && s.calls[u].temp.Some? ensures s.calls[u].temp.value.ino != s.dir[n] {
      assert TempsApart(s.calls, t, u);
    }
  }

  // ---- Which outcome a call has ----

  /** The call is comparing an existing destination, or has ended with `outcome`. */
  predicate Judging(k: Publisher, outcome: Outcome) {
    k.stage.Checking? || k.stage.Opening? || k.stage.Comparing? || k.stage == Removing(outcome) || k.stage == Done(outcome)
  }

  lemma JudgeEqual(s: State, a: Step, t: Tid)
    requires Inv(s) && Enabled(s, a) && a != Fail(t) && t in s.calls && t in Apply(s, a).calls && Judging(s.calls[t], Reused)
    requires Target(s.calls[t].dest) in s.dir && s.dir[Target(s.calls[t].dest)] in s.files
    requires s.files[s.dir[Target(s.calls[t].dest)]] == s.calls[t].want
    ensures Judging(Apply(s, a).calls[t], Reused) && Apply(s, a).calls[t].dest == s.calls[t].dest && Apply(s, a).calls[t].want == s.calls[t].want
  {
    assert CallAt(s.dir, s.files, s.calls, t);
  }

  lemma JudgeOther(s: State, a: Step, t: Tid)
    requires Inv(s) && Enabled(s, a) && t in s.calls && t in Apply(s, a).calls && Judging(s.calls[t], Refused)
    requires Target(s.calls[t].dest) in s.dir && s.dir[Target(s.calls[t].dest)] in s.files
    requires s.files[s.dir[Target(s.calls[t].dest)]] != s.calls[t].want
    ensures Judging(Apply(s, a).calls[t], Refused) && Apply(s, a).calls[t].dest == s.calls[t].dest && Apply(s, a).calls[t].want == s.calls[t].want
  {
    StepKeeps(s, a);
    StepKept(s, a, Target(s.calls[t].dest));
    assert CallAt(s.dir, s.files, s.calls, t);
    assert CallAt(Apply(s, a).dir, Apply(s, a).files, Apply(s, a).calls, t);
  }

  lemma RunStepJudges(states: seq<State>, steps: seq<Step>, i: nat, t: Tid, equal: bool)
    requires Run(states, steps) && i < |steps| && t in states[i].calls && t in states[i + 1].calls
    requires Judging(states[i].calls[t], if equal then Reused else Refused) && (equal ==> steps[i] != Fail(t))
    requires var n := Target(states[i].calls[t].dest);
             n in states[i].dir && states[i].dir[n] in states[i].files && (equal <==> states[i].files[states[i].dir[n]] == states[i].calls[t].want)
    ensures Judging(states[i + 1].calls[t], if equal then Reused else Refused)
    ensures states[i + 1].calls[t].dest == states[i].calls[t].dest && states[i + 1].calls[t].want == states[i].calls[t].want
  {
    RunKeeps(states, steps, i);
    assert NextAt(states, steps, i);
    if equal { JudgeEqual(states[i], steps[i], t); } else { JudgeOther(states[i], steps[i], t); }
  }

  /** A call that finds the destination taken, before or at its link, ends as Reused if the
      destination has its slice's bytes and no I/O error comes up, and as Refused if
      the bytes differ. */
  lemma {:induction false} TakenDestinationJudged(states: seq<State>, steps: seq<Step>, i: nat, j: nat, t: Tid)
    requires Run(states, steps) && i <= j < |states| && (forall k | i <= k <= j :: t in states[k].calls)
    requires states[i].calls[t].stage.Checking?
    ensures var n := Target(states[i].calls[t].dest);
            && n in states[i].dir && states[i].dir[n] in states[i].files
            && (var equal := states[i].files[states[i].dir[n]] == states[i].calls[t].want;
                (equal ==> forall k | i <= k < j :: steps[k] != Fail(t)) ==>
                  Judging(states[j].calls[t], if equal then Reused else Refused)
                  && states[j].calls[t].dest == states[i].calls[t].dest && states[j].calls[t].want == states[i].calls[t].want)
    decreases j
  {
    RunKeeps(states, steps, i);
    var n := Target(states[i].calls[t].dest);
    assert CallAt(states[i].dir, states[i].files, states[i].calls, t) && NameAt(states[i].dir, states[i].files, n);
    if i < j {
      TakenDestinationJudged(states, steps, i, j - 1, t);
      DestinationIsNeverTouched(states, steps, i, j - 1, n);
      var equal := states[i].files[states[i].dir[n]] == states[i].calls[t].want;
      if equal ==> forall k | i <= k < j :: steps[k] != Fail(t) { RunStepJudges(states, steps, j - 1, t, equal); }
    }
  }

  /** Inspection and link decide by the destination: taken, it is judged; free, the call
      goes on to write its own file, and at the link it creates the destination. */
  lemma DestinationDecides(states: seq<State>, steps: seq<Step>, i: nat, t: Tid)
    requires Run(states, steps) && i < |steps| && (steps[i] == Inspect(t) || steps[i] == Link(t))
    ensures t in states[i].calls && t in states[i + 1].calls
    ensures var taken := Target(states[i].calls[t].dest) in states[i].dir;
            states[i + 1].calls[t].stage ==
              if taken then Checking else if steps[i].Inspect? then Creating else Removing(Created)
  {
    assert NextAt(states, steps, i);
  }
}
