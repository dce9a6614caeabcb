/** The registry object: lookup with guarding, guard release, and the two loops of
    the reaper that run under the registry mutex. */
module RegistryObject {
  import opened Registry

  class RegistryEntry {
    var lastUsed: nat
    var activeCalls: nat
    var pins: nat
    const legacy: bool
    var lease: bool

    constructor (now: nat, legacy: bool)
      ensures this.legacy == legacy && View() == Entry(now, 0, 0, legacy, false)
    {
      lastUsed := now;
      activeCalls := 0;
      pins := 0;
      this.legacy := legacy;
      lease := false;
    }

    function View(): Entry
      reads this
    {
      Entry(lastUsed, activeCalls, pins, legacy, lease)
    }

    predicate Unguarded()
      reads this
    {
      !legacy && activeCalls == 0 && pins == 0
    }

    /** The re-check of `take_expired_entries`. */
    predicate Reapable(reason: Reason, now: nat, timeout: nat)
      reads this
    {
      && Unguarded()
      && match reason
         case Idle => timeout != 0 && now >= lastUsed + timeout
         case Terminal => !lease
    }
  }

  ghost function KeysOf(expired: seq<(Key, RegistryEntry, Reason)>): set<Key> {
    set i | 0 <= i < |expired| :: expired[i].0
  }

  lemma KeysOfAppend(expired: seq<(Key, RegistryEntry, Reason)>, x: (Key, RegistryEntry, Reason))
    ensures KeysOf(expired + [x]) == KeysOf(expired) + {x.0}
  {
    var more := expired + [x];
    assert more[|expired|] == x;
    forall k | k in KeysOf(expired) ensures k in KeysOf(more) {
      var i :| 0 <= i < |expired| && expired[i].0 == k;
      assert more[i].0 == k;
    }
  }

  class WorkspaceRegistry {
    const timeout: nat
    var entries: map<Key, RegistryEntry>

    constructor (timeout: nat)
      ensures this.timeout == timeout && entries == map[]
    {
      this.timeout := timeout;
      entries := map[];
    }

    /** `allocate_database`: the new entry is born guarded. */
    method Allocate(k: Key, now: nat) returns (entry: RegistryEntry)
      requires k !in entries
      modifies this
      ensures fresh(entry) && entries == old(entries)[k := entry]
      ensures entry.View() == Entry(now, 1, 0, false, false)
    {
      entry := new RegistryEntry(now, false);
      entry.activeCalls := 1;
      entries := entries[k := entry];
    }

    /** `acquire` and `pin`: an unknown id yields nothing and changes nothing. */
    method Acquire(k: Key, pin: bool, now: nat) returns (entry: RegistryEntry?)
      modifies entries.Values
      ensures entry == if k in entries then entries[k] else null
      ensures entry != null ==> entry.View() == CountUp(old(entries[k].View()), pin).(lastUsed := now)
      ensures forall e :: e in entries.Values && e != entry ==> e.View() == old(e.View())
    {
      if k !in entries {
        return null;
      }
      entry := entries[k];
      if pin {
        entry.pins := entry.pins + 1;
      } else {
        entry.activeCalls := entry.activeCalls + 1;
      }
      entry.lastUsed := now;
    }

    /** Dropping a guard: the timestamp is published before the count goes down. */
    method DropGuard(entry: RegistryEntry, pin: bool, now: nat)
      requires if pin then entry.pins > 0 else entry.activeCalls > 0
      modifies entry
      ensures entry.View() == CountDown(old(entry.View()), pin).(lastUsed := now)
    {
      entry.lastUsed := now;
      if pin {
        entry.pins := entry.pins - 1;
      } else {
        entry.activeCalls := entry.activeCalls - 1;
      }
    }

    /** `collect_reap_candidates`: exactly the entries that are no legacy bindings and
        have no active call and no pin. */
    method CollectCandidates() returns (candidates: seq<(Key, RegistryEntry)>)
      ensures forall i :: 0 <= i < |candidates| ==>
                var (k, e) := candidates[i];
                k in entries && entries[k] == e && !e.legacy && e.activeCalls == 0 && e.pins == 0
      ensures forall k :: k in entries && !entries[k].legacy && entries[k].activeCalls == 0 && entries[k].pins == 0 ==>
                (k, entries[k]) in candidates
    {
      candidates := [];
      var todo := entries.Keys;
      while todo != {}
        invariant todo <= entries.Keys
        invariant forall i :: 0 <= i < |candidates| ==>
                    var (k, e) := candidates[i]; k in entries && entries[k] == e && e.Unguarded()
        invariant forall k :: k in entries && k !in todo && entries[k].Unguarded() ==> (k, entries[k]) in candidates
        decreases todo
      {
        var k :| k in todo;
        if entries[k].Unguarded() {
          candidates := candidates + [(k, entries[k])];
        }
        todo := todo - {k};
      }
    }

    ghost predicate Doomed(es: map<Key, RegistryEntry>, reapable: seq<(Key, Reason)>, now: nat, k: Key)
      reads es.Values
    {
      k in es && exists i :: 0 <= i < |reapable| && reapable[i].0 == k && es[k].Reapable(reapable[i].1, now, timeout)
    }

    ghost predicate Passed(es: map<Key, RegistryEntry>, reapable: seq<(Key, Reason)>, now: nat, x: (Key, RegistryEntry, Reason))
      reads es.Values
    {
      x.0 in es && es[x.0] == x.1 && x.1.Reapable(x.2, now, timeout) && (x.0, x.2) in reapable
    }

    ghost function DoomedKeys(es: map<Key, RegistryEntry>, reapable: seq<(Key, Reason)>, now: nat): set<Key>
      reads es.Values
    {
      set k | k in es && Doomed(es, reapable, now, k)
    }

    /** `take_expired_entries`: removes exactly the reported entries that are no legacy
        bindings, have no active call and no pin, and are past the timeout (idle) or
        without a lease (terminal); returns each of them once, and touches no entry. */
    method TakeExpired(reapable: seq<(Key, Reason)>, now: nat) returns (expired: seq<(Key, RegistryEntry, Reason)>)
      modifies this`entries
      ensures forall k :: k in entries <==>
                && k in old(entries)
                && !(var e := old(entries)[k];
                     && !e.legacy && e.activeCalls == 0 && e.pins == 0
                     && (|| ((k, Idle) in reapable && timeout != 0 && now >= e.lastUsed + timeout)
                         || ((k, Terminal) in reapable && !e.lease)))
      ensures forall k :: k in entries ==> entries[k] == old(entries)[k]
      ensures forall i :: 0 <= i < |expired| ==>
                var (k, e, reason) := expired[i];
                && k in old(entries) && old(entries)[k] == e && (k, reason) in reapable
                && !e.legacy && e.activeCalls == 0 && e.pins == 0
                && (if reason == Idle then timeout != 0 && now >= e.lastUsed + timeout else !e.lease)
      ensures KeysOf(expired) == old(entries).Keys - entries.Keys
      ensures forall i, j :: 0 <= i < j < |expired| ==> expired[i].0 != expired[j].0
    {
      expired := [];
      ghost var was := entries;
      var left := entries;
      var n := 0;
      while n < |reapable|
        invariant 0 <= n <= |reapable|
        invariant left.Keys == was.Keys - DoomedKeys(was, reapable[..n], now)
        invariant forall k :: k in left ==> left[k] == was[k]
        invariant forall i :: 0 <= i < |expired| ==> expired[i].0 in KeysOf(expired) && Passed(was, reapable, now, expired[i])
        invariant KeysOf(expired) == was.Keys - left.Keys
        invariant forall i, j :: 0 <= i < j < |expired| ==> expired[i].0 != expired[j].0
      {
        var (k, reason) := reapable[n];
        DoomedStep(was, reapable, now, n);
        if k in left && left[k].Reapable(reason, now, timeout) {
          KeysOfAppend(expired, (k, left[k], reason));
          expired := expired + [(k, left[k], reason)];
          left := left - {k};
        }
        n := n + 1;
      }
      assert reapable[..n] == reapable;
      DoomedFields(was, reapable, now);
      entries := left;
    }

    lemma DoomedFields(es: map<Key, RegistryEntry>, reapable: seq<(Key, Reason)>, now: nat)
      ensures forall k :: k in es ==>
                (k in DoomedKeys(es, reapable, now) <==>
                   var e := es[k];
                   && !e.legacy && e.activeCalls == 0 && e.pins == 0
                   && (|| ((k, Idle) in reapable && timeout != 0 && now >= e.lastUsed + timeout)
                       || ((k, Terminal) in reapable && !e.lease)))
    {
      forall k | k in es
        ensures k in DoomedKeys(es, reapable, now) <==>
                  exists reason :: (k, reason) in reapable && es[k].Reapable(reason, now, timeout)
      {
        if reason :| (k, reason) in reapable && es[k].Reapable(reason, now, timeout) {
          var i :| 0 <= i < |reapable| && reapable[i] == (k, reason);
          assert Doomed(es, reapable, now, k);
        }
        if Doomed(es, reapable, now, k) {
          var i :| 0 <= i < |reapable| && reapable[i].0 == k && es[k].Reapable(reapable[i].1, now, timeout);
          assert (k, reapable[i].1) in reapable;
        }
      }
    }

    lemma DoomedStep(es: map<Key, RegistryEntry>, reapable: seq<(Key, Reason)>, now: nat, n: nat)
      requires n < |reapable|
      ensures DoomedKeys(es, reapable[..n + 1], now) == DoomedKeys(es, reapable[..n], now) +
                if reapable[n].0 in es && es[reapable[n].0].Reapable(reapable[n].1, now, timeout) then {reapable[n].0} else {}
    {
      forall k | k in es && reapable[n].0 == k && es[k].Reapable(reapable[n].1, now, timeout)
        ensures Doomed(es, reapable[..n + 1], now, k)
      {
        assert reapable[..n + 1][n] == reapable[n];
      }
      forall k | Doomed(es, reapable[..n], now, k) ensures Doomed(es, reapable[..n + 1], now, k) {
        var i :| 0 <= i < n && reapable[..n][i].0 == k && es[k].Reapable(reapable[..n][i].1, now, timeout);
        assert reapable[..n + 1][i] == reapable[i];
      }
    }
  }

  /** The re-check is the machine's: with the mutex free, an entry passes it exactly
      when the reaper's four reads can be taken on it one after the other. */
  lemma RecheckIsTheMachine(s: State, k: Key, reason: Reason, e: RegistryEntry)
    requires Free(s) && k in s.entries && s.entries[k] in s.objects && s.objects[s.entries[k]] == e.View()
    ensures e.Reapable(reason, s.now, s.timeout) <==>
            && Enabled(s, Look(k, reason))
            && Enabled(Apply(s, Look(k, reason)), SeeCalls)
            && var s2 := Apply(Apply(s, Look(k, reason)), SeeCalls);
            && Enabled(s2, SeePins)
            && Enabled(Apply(s2, SeePins), SeePolicy)
  {
  }
}
