/** What the engine's steps promise, proved about the pure model in engine.dfy. */
module EngineProps {
  import opened Define
  import opened Values
  import opened Memory
  import opened Engine

  // ---------------------------------------------------------------------------------------
  // findQueueByPid

  /** Once a scan has found an entry, scanning further keys returns the same entry. */
  lemma {:induction false} LookupStable(t: map<nat, Entry>, pid: int, m: nat, n: nat)
    requires m <= n
    requires Lookup(t, pid, m).Some?
    ensures Lookup(t, pid, n) == Lookup(t, pid, m)
    decreases n
  {
    if n > m {
      LookupStable(t, pid, m, n - 1);
    }
  }

  /**
   * On a sound table the scan finds exactly the entry under key `pid`, and only once that entry
   * carries its pid (an entry never dispatched has none and cannot be found).
   */
  lemma {:induction false} LookupFindsKey(t: map<nat, Entry>, pid: int, n: nat)
    requires TableOk(t, n)
    ensures Lookup(t, pid, n).Some? <==> 0 <= pid && pid in t && t[pid].pid.Some?
    ensures Lookup(t, pid, n).Some? ==> Lookup(t, pid, n).value == t[pid]
    decreases n
  {
    if n > 0 {
      var t' := map k | k in t && k < n - 1 :: t[k];
      LookupBelow(t, t', pid, n - 1);
      LookupFindsKey(t', pid, n - 1);
    }
  }

  /** The scan over keys below `n` depends only on the entries under those keys. */
  lemma {:induction false} LookupBelow(t: map<nat, Entry>, t': map<nat, Entry>, pid: int, n: nat)
    requires forall k :: k < n ==> (k in t <==> k in t') && (k in t ==> t[k] == t'[k])
    ensures Lookup(t, pid, n) == Lookup(t', pid, n)
    decreases n
  {
    if n > 0 {
      LookupBelow(t, t', pid, n - 1);
    }
  }

  // ---------------------------------------------------------------------------------------
  // queueProcess, one key at a time

  /** A partial pass launches exactly the dispatchable entries below `n` and keeps the rest. */
  lemma {:induction false} PartialLaunches(s: State, ev: Evaluator, n: nat)
    ensures forall k :: k in s.table ==>
      PartialProcess(s, ev, n)[k] == if k < n && Dispatchable(s.table[k], s, ev) then Launch(s.table[k], k) else s.table[k]
  {
    if n > 0 {
      PartialLaunches(s, ev, n - 1);
      var t := PartialProcess(s, ev, n - 1);
      var launch := n - 1 in s.table && Dispatchable(s.table[n - 1], s, ev);
      assert PartialProcess(s, ev, n) == if launch then t[n - 1 := Launch(s.table[n - 1], n - 1)] else t;
      forall k | k in s.table
        ensures PartialProcess(s, ev, n)[k]
             == if k < n && Dispatchable(s.table[k], s, ev) then Launch(s.table[k], k) else s.table[k]
      {
        if k != n - 1 {
          assert PartialProcess(s, ev, n)[k] == t[k];
        }
      }
    }
  }

  /** Once every key below the counter is visited, the pass has produced its whole table. */
  lemma PartialDone(s: State, ev: Evaluator)
    requires TableOk(s.table, s.counter)
    ensures PartialProcess(s, ev, s.counter) == ProcessTable(s, ev)
  {
    PartialLaunches(s, ev, s.counter);
  }

  /** A pass keeps the table sound: launching gives an entry its own key as pid. */
  lemma ProcessTableOk(s: State, ev: Evaluator)
    requires TableOk(s.table, s.counter)
    ensures TableOk(ProcessTable(s, ev), s.counter)
  {
  }

  // ---------------------------------------------------------------------------------------
  // _updateMemoryPerms, one name at a time

  /** Syncing one more name appends it to the index exactly when it is Permanent. */
  lemma PermNamesSnoc(mem: map<string, Snapshot>, ns: seq<string>, n: string)
    ensures PermNames(mem, ns + [n]) == PermNames(mem, ns) + if n in mem && mem[n].mode == Permanent then [n] else []
  {
    assert (ns + [n])[..|ns|] == ns;
  }

  /** Syncing one more name adds its record exactly when it is Permanent. */
  lemma SyncRecordsSnoc(mem: map<string, Snapshot>, ns: seq<string>, n: string)
    ensures SyncRecords(mem, ns + [n])
         == SyncRecords(mem, ns) + if n in mem && mem[n].mode == Permanent then map[n := Intact(mem[n])] else map[]
  {
    assert (ns + [n])[..|ns|] == ns;
  }
}
