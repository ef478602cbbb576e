/** What the memory operations of the engine promise: writes, the Permanent sync and the reload. */
module MemoryProps {
  import opened Define
  import opened Values
  import opened Memory
  import opened Engine
  import EngineProps

  /**
   * `memory(pid, v)` for a dispatched entry stores `v` under the entry's memory name (its
   * `memoryName`, else "queueable.command") with the entry's mode (Garbage by default) and
   * the pid as owner. It does not sync the durable store, whatever the mode.
   */
  lemma WriteMemoryFound(s: State, pid: int, value: Value)
    requires Wf(s)
    requires 0 <= pid && pid in s.table && s.table[pid].pid.Some?
    ensures var e := s.table[pid];
      var origin := if Given(e.cmd.options.memoryName) then e.cmd.options.memoryName.value
                    else e.cmd.queueable + "." + e.cmd.command;
      var mode := if e.cmd.options.memoryMode.Some? then e.cmd.options.memoryMode.value else Garbage;
      var r := WriteMemory(s, pid, value);
      && r.memory == s.memory[origin := Snapshot(pid, mode, origin, value)]
      && origin in r.names
      && NamesOk(r.names, r.memory.Keys)
      && r.store == s.store && r.index == s.index
      && r.table == s.table && r.reports == s.reports
  {
    EngineProps.LookupFindsKey(s.table, pid, s.counter);
  }

  /** `memory(pid, v)` for an unknown pid stores nothing and reports, unless the pid is -1. */
  lemma WriteMemoryUnknown(s: State, pid: int, value: Value)
    requires Wf(s)
    requires !(0 <= pid && pid in s.table && s.table[pid].pid.Some?)
    ensures var r := WriteMemory(s, pid, value);
      && r.memory == s.memory && r.names == s.names && r.store == s.store
      && r.reports == if pid == -1 then s.reports else s.reports + [NoPid(pid)]
  {
    EngineProps.LookupFindsKey(s.table, pid, s.counter);
  }

  /** The records the sync writes: one per Permanent item named in `ns`, holding that item. */
  lemma {:induction false} SyncRecordsSpec(mem: map<string, Snapshot>, ns: seq<string>)
    ensures forall n :: n in SyncRecords(mem, ns) <==> n in ns && n in mem && mem[n].mode == Permanent
    ensures forall n :: n in SyncRecords(mem, ns) ==> SyncRecords(mem, ns)[n] == Intact(mem[n])
    decreases |ns|
  {
    if ns != [] {
      SyncRecordsSpec(mem, ns[..|ns| - 1]);
      assert ns == ns[..|ns| - 1] + [ns[|ns| - 1]];
    }
  }

  /**
   * `_updateMemoryPerms` indexes exactly the names of the Permanent items, each once, and
   * writes each of them as an intact record; every other record is left as it was.
   */
  lemma SyncIndexesPermanent(s: State)
    requires NamesOk(s.names, s.memory.Keys)
    ensures var r := Sync(s);
      && r.index.Intact?
      && (forall n :: n in r.index.contents <==> n in s.memory && s.memory[n].mode == Permanent)
      && Distinct(r.index.contents)
      && (forall n :: n in s.memory && s.memory[n].mode == Permanent ==> n in r.store && r.store[n] == Intact(s.memory[n]))
      && (forall n :: !(n in s.memory && s.memory[n].mode == Permanent) ==>
            (n in r.store <==> n in s.store) && (n in s.store ==> r.store[n] == s.store[n]))
      && r.memory == s.memory && r.names == s.names && r.table == s.table
  {
    SyncRecordsSpec(s.memory, s.names);
  }

  /**
   * `setMemory(name, v, mode)` stores a user item (owner -1, origin 'User', Garbage by
   * default) and keeps every other item. Only a Permanent write syncs the durable store,
   * and then the new item is indexed and recorded.
   */
  lemma SetMemoryStores(s: State, name: string, value: Value, mode: Option<MemoryMode>)
    requires NamesOk(s.names, s.memory.Keys)
    ensures var m := if mode.Some? then mode.value else Garbage;
      var r := SetMemory(s, name, value, mode);
      && r.memory == s.memory[name := Snapshot(-1, m, "User", value)]
      && NamesOk(r.names, r.memory.Keys)
      && r.table == s.table
      && (m != Permanent ==> r.store == s.store && r.index == s.index)
      && (m == Permanent ==>
            r.index.Intact? && name in r.index.contents && name in r.store && r.store[name] == Intact(r.memory[name]))
  {
    var m := if mode.Some? then mode.value else Garbage;
    var s1 := Put(s, name, Snapshot(-1, m, "User", value));
    PutNamesOk(s, name, Snapshot(-1, m, "User", value));
    if m == Permanent {
      SyncIndexesPermanent(s1);
    }
  }

  /** Storing an item keeps the names consistent with the memory store. */
  lemma PutNamesOk(s: State, name: string, item: Snapshot)
    requires NamesOk(s.names, s.memory.Keys)
    ensures NamesOk(Put(s, name, item).names, Put(s, name, item).memory.Keys)
  {
  }

  /**
   * `deleteMemory(name)` drops the item, and the re-sync takes it out of the index; its old
   * record stays in the durable store but nothing names it any more.
   */
  lemma DeleteMemoryUnindexes(s: State, name: string)
    requires NamesOk(s.names, s.memory.Keys)
    ensures var r := DeleteMemory(s, name);
      && r.memory == s.memory - {name}
      && name !in r.names && NamesOk(r.names, r.memory.Keys)
      && r.index.Intact? && name !in r.index.contents
      && (name in s.store ==> name in r.store && r.store[name] == s.store[name])
  {
    var s1 := s.(memory := s.memory - {name}, names := KeepNames(s.names, s.memory.Keys - {name}));
    SyncIndexesPermanent(s1);
  }

  /**
   * `_loadMemoryPerms` stops at the first name whose record is missing or corrupt: the names
   * before it are restored and nothing after it is.
   */
  lemma {:induction false} RestoreStopsAtCorrupt(s: State, ns: seq<string>, i: nat)
    requires i < |ns|
    requires forall j :: 0 <= j < i ==> ns[j] in s.store && s.store[ns[j]].Intact?
    requires !(ns[i] in s.store && s.store[ns[i]].Intact?)
    ensures Restore(s, ns) == Restore(s, ns[..i])
    decreases i
  {
    if i > 0 {
      var s1 := Put(s, ns[0], s.store[ns[0]].contents);
      assert ns[1..][..i - 1] == ns[..i][1..];
      RestoreStopsAtCorrupt(s1, ns[1..], i - 1);
    }
  }

  /**
   * Restoring a list of distinct new names whose records are all intact adds each named item
   * from its record and keeps every other item.
   */
  lemma {:induction false} RestoreAll(s: State, ns: seq<string>)
    requires Distinct(ns)
    requires forall n :: n in ns ==> n !in s.memory && n in s.store && s.store[n].Intact?
    ensures var r := Restore(s, ns);
      && (forall n :: n in r.memory <==> n in s.memory || n in ns)
      && (forall n :: n in ns ==> r.memory[n] == s.store[n].contents)
      && (forall n :: n in s.memory ==> r.memory[n] == s.memory[n])
    decreases |ns|
  {
    if ns != [] {
      var s1 := Put(s, ns[0], s.store[ns[0]].contents);
      assert forall n :: n in ns[1..] ==> n in ns && n != ns[0];
      RestoreAll(s1, ns[1..]);
    }
  }

  /** Restoring such a list appends its names in order and leaves the durable store alone. */
  lemma {:induction false} RestoreNames(s: State, ns: seq<string>)
    requires Distinct(ns)
    requires forall n :: n in ns ==> n !in s.memory && n in s.store && s.store[n].Intact?
    ensures Restore(s, ns).names == s.names + ns
    ensures Restore(s, ns).store == s.store
    decreases |ns|
  {
    if ns != [] {
      var s1 := Put(s, ns[0], s.store[ns[0]].contents);
      assert forall n :: n in ns[1..] ==> n in ns && n != ns[0];
      RestoreNames(s1, ns[1..]);
      assert s1.names == s.names + [ns[0]];
      assert (s.names + [ns[0]]) + ns[1..] == s.names + ns;
    }
  }

  /**
   * Round trip of the durable store: after `_updateMemoryPerms`, a fresh engine whose memory
   * is empty and which reads the same durable store gets back exactly the Permanent items,
   * in their enumeration order.
   */
  lemma LoadAfterSync(s: State, t: State)
    requires NamesOk(s.names, s.memory.Keys)
    requires t.index == Sync(s).index && t.store == Sync(s).store
    requires t.memory == map[] && t.names == []
    ensures LoadPerms(t).memory == map n | n in s.memory && s.memory[n].mode == Permanent :: s.memory[n]
    ensures LoadPerms(t).names == PermNames(s.memory, s.names)
  {
    LoadAfterSyncItems(s, t);
  }

  /** The pointwise form of the round trip: which items come back, and with what. */
  lemma LoadAfterSyncItems(s: State, t: State)
    requires NamesOk(s.names, s.memory.Keys)
    requires t.index == Sync(s).index && t.store == Sync(s).store
    requires t.memory == map[] && t.names == []
    ensures forall n :: n in LoadPerms(t).memory <==> n in s.memory && s.memory[n].mode == Permanent
    ensures forall n :: n in LoadPerms(t).memory ==> LoadPerms(t).memory[n] == s.memory[n]
    ensures LoadPerms(t).names == PermNames(s.memory, s.names)
  {
    var ns := PermNames(s.memory, s.names);
    SyncRestorable(s, t);
    RestoreAll(t, ns);
    RestoreNames(t, ns);
  }

  /** After the sync, the index names the Permanent items once each, and each has an intact record of itself. */
  lemma SyncRestorable(s: State, t: State)
    requires NamesOk(s.names, s.memory.Keys)
    requires t.index == Sync(s).index && t.store == Sync(s).store
    requires t.memory == map[]
    ensures t.index == Intact(PermNames(s.memory, s.names))
    ensures Distinct(PermNames(s.memory, s.names))
    ensures forall n :: n in PermNames(s.memory, s.names) ==>
      n !in t.memory && n in t.store && t.store[n] == Intact(s.memory[n])
  {
    SyncIndexesPermanent(s);
  }
}
