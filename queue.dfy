/**
 * The queue engine object of Queue.js. Its fields are the engine's tables, the memory store of
 * Memory objects and the durable store; every method is proved to move the abstract state
 * `Abs()` exactly as the matching step function of engine.dfy does.
 */
module Queue {
  import opened Define
  import opened Values
  import Memory
  import opened Engine
  import opened EngineProps

  class Queue {
    var table: map<nat, Entry>
    var counter: nat
    var prepare: map<string, Command>
    var queueables: map<string, Capability>
    var registers: seq<string>
    /** `window.memory`: each item as the snapshot of its Memory object. */
    var memory: map<string, Memory.Snapshot>
    var names: seq<string>
    var index: Cookie<seq<string>>
    var store: map<string, Cookie<Memory.Snapshot>>
    var reports: seq<Report>
    /** Evaluation of `queueStatement` code against the memory store. */
    const evaluate: Evaluator

    /** `names` lists the memory store's keys once each, in enumeration order. */
    ghost predicate MemoryOk()
      reads this
    {
      NamesOk(names, memory.Keys)
    }

    ghost predicate Valid()
      reads this
    {
      TableOk(table, counter) && PrepareOk(prepare) && Distinct(registers) && MemoryOk()
    }

    ghost function Abs(): State
      reads this
    {
      State(table, counter, prepare, queueables, registers, memory, names, index, store, reports)
    }

    /** The abstract state of a valid queue is well formed. */
    lemma ValidWf()
      requires Valid()
      ensures Wf(Abs())
    {
    }

    /**
     * A new engine: every listed queueable is booted and ready, except an inherited name, which
     * `checkQueueable` finds already present and never boots; nothing is queued or prepared,
     * no register is set and memory is empty; the durable store is whatever the browser holds.
     */
    constructor(units: map<string, set<string>>, evaluate: Evaluator,
                index: Cookie<seq<string>>, store: map<string, Cookie<Memory.Snapshot>>)
      ensures Valid()
      ensures Abs() == State(map[], 0, map[], map n | n in units && n !in ObjectProperties :: Capability(true, units[n]),
                             [], map[], [], index, store, [])
    {
      this.table := map[];
      this.counter := 0;
      this.prepare := map[];
      this.queueables := map n | n in units && n !in ObjectProperties :: Capability(true, units[n]);
      this.registers := [];
      this.memory := map[];
      this.names := [];
      this.index := index;
      this.store := store;
      this.reports := [];
      this.evaluate := evaluate;
    }

    /** `checkQueueable(name, obj)`: boot an unknown queueable; report whether it was known. */
    method CheckQueueable(name: string, commands: set<string>) returns (existed: bool)
      requires Valid()
      modifies this`queueables
      ensures Valid()
      ensures existed == (name in old(queueables) || name in ObjectProperties)
      ensures Abs() == Engine.CheckQueueable(old(Abs()), name, commands)
    {
      if name !in queueables && name !in ObjectProperties {
        queueables := queueables[name := Capability(true, commands)];
        return false;
      }
      return true;
    }

    /** One command of `commandsQueue`. */
    method Submit(c: Command)
      requires Valid()
      modifies this`table, this`counter, this`prepare
      ensures Valid()
      ensures Abs() == SubmitOne(old(Abs()), c)
    {
      if c.options.queueRun == Some(Instant) {
        table := table[counter := Normalize(c)];
        counter := counter + 1;
      }
      if c.options.queuePrepare.Some? {
        prepare := prepare[c.options.queuePrepare.value := c];
      }
    }

    /** `commandsQueue(cs)`: submit each command in order, then run one pass. */
    method CommandsQueue(cs: seq<Command>) returns (started: seq<nat>)
      requires Valid()
      modifies this
      ensures Valid()
      ensures Abs() == Engine.CommandsQueue(old(Abs()), cs, evaluate)
      ensures started == Started(SubmitAll(old(Abs()), cs), evaluate)
    {
      ghost var s0 := Abs();
      for i := 0 to |cs|
        invariant Valid()
        invariant Abs() == SubmitAll(s0, cs[..i])
      {
        Submit(cs[i]);
        assert cs[..i + 1][..i] == cs[..i];
      }
      assert cs[..|cs|] == cs;
      started := QueueProcess();
    }

    /** One iteration of `queueProcess`: the visit of key `k` by a pass that reads the state `s0`. */
    method Visit(k: nat, snapshots: map<string, Memory.Snapshot>, ghost s0: State) returns (launched: bool)
      requires snapshots == s0.memory && registers == s0.registers && queueables == s0.queueables
      requires k in table <==> k in s0.table
      requires k in table ==> table[k] == s0.table[k]
      modifies this`table, this`reports
      ensures launched == (k in s0.table && Dispatchable(s0.table[k], s0, evaluate))
      ensures table == if launched then old(table)[k := Launch(s0.table[k], k)] else old(table)
      ensures reports == old(reports) + UnfoundAt(s0.table, s0.queueables, k)
    {
      launched := false;
      if k in table && table[k].state == Added {
        var e := table[k];
        if e.cmd.queueable in queueables {
          if RegisterOk(e.cmd.options, registers) {
            if StatementOk(e.cmd.options, snapshots, evaluate) {
              if queueables[e.cmd.queueable].ready {
                table := table[k := Launch(e, k)];
                launched := true;
              }
            }
          }
        } else if e.cmd.queueable !in ObjectProperties {
          reports := reports + [NoQueueable(e.cmd.queueable)];
        }
      }
    }

    /**
     * `queueProcess()`: one pass over the table in key order. It starts the dispatchable
     * entries (returned in the order started) and reports the unknown queueables.
     */
    method QueueProcess() returns (started: seq<nat>)
      requires Valid()
      modifies this`table, this`reports
      ensures Valid()
      ensures Abs() == Process(old(Abs()), evaluate)
      ensures started == Started(old(Abs()), evaluate)
    {
      ghost var s0 := Abs();
      started := Pass(s0);
      PartialDone(s0, evaluate);
      ProcessTableOk(s0, evaluate);
    }

    /** The loop of `queueProcess`: visit every key below the counter, reading the state `s0`. */
    method Pass(ghost s0: State) returns (started: seq<nat>)
      requires s0 == Abs()
      modifies this`table, this`reports
      ensures table == PartialProcess(s0, evaluate, counter)
      ensures reports == s0.reports + Unfound(s0.table, s0.queueables, counter)
      ensures started == StartedKeys(s0, evaluate, counter)
    {
      var snapshots := memory;
      started := [];
      var k := 0;
      while k < counter
        invariant 0 <= k <= counter
        invariant table == PartialProcess(s0, evaluate, k)
        invariant started == StartedKeys(s0, evaluate, k)
        invariant reports == s0.reports + Unfound(s0.table, s0.queueables, k)
        invariant snapshots == s0.memory && registers == s0.registers && queueables == s0.queueables
      {
        var launched := Visit(k, snapshots, s0);
        if launched {
          started := started + [k];
        }
        k := k + 1;
      }
    }

    /**
     * `execute(name, json, silentFail)`: submit a clone of a prepared template. It returns true
     * exactly when the template exists and its statement holds.
     */
    method Execute(name: string, json: Option<Value>, silent: bool) returns (ok: bool, thrown: Option<string>, started: seq<nat>)
      requires Valid()
      modifies this
      ensures Valid()
      ensures thrown.Some? <==> ExecuteThrows(old(Abs()), name, json, evaluate)
      ensures thrown.Some? ==> thrown.value == ExecuteError(old(Abs()), name, evaluate) && !ok
      ensures thrown.None? ==> ok == Runs(old(Abs()), name, evaluate)
      ensures Abs() == Engine.Execute(old(Abs()), name, json, silent, evaluate)
      ensures started == ExecuteStarted(old(Abs()), name, json, evaluate)
    {
      started := [];
      if name in prepare {
        var o := prepare[name].options;
        if Given(o.queueStatement) {
          var verdict := evaluate(o.queueStatement.value, memory);
          if verdict.None? {
            return false, Some("Error: queueStatement of [" + name + "] threw"), started;
          }
          if !Truthy(verdict.value) {
            return false, None, started;
          }
        }
        if json.Some? && AssignThrows(prepare[name].json) {
          return false, Some("TypeError: Cannot convert undefined or null to object"), started;
        }
        var c := Clone(prepare[name], json);
        started := CommandsQueue([c]);
        return true, None, started;
      }
      if name in ObjectProperties {
        return false, Some("TypeError: Cannot read properties of undefined (reading 'queueStatement')"), started;
      }
      if !silent {
        reports := reports + [NoPrepare(name)];
      }
      return false, None, started;
    }

    /**
     * `findQueueByPid(pid)`: the first entry, in key order, whose pid is `pid`. On a valid
     * queue that is the entry under key `pid`, once it has been dispatched.
     */
    method FindQueueByPid(pid: int) returns (found: Option<Entry>)
      ensures found == Lookup(table, pid, counter)
      ensures Valid() ==> (found.Some? <==> 0 <= pid && pid in table && table[pid].pid.Some?)
      ensures Valid() && found.Some? ==> found.value == table[pid]
    {
      found := None;
      var k := 0;
      while k < counter && found.None?
        invariant 0 <= k <= counter
        invariant found == Lookup(table, pid, k)
      {
        if k in table && table[k].pid.Some? && table[k].pid.value == pid {
          found := Some(table[k]);
        }
        k := k + 1;
      }
      if found.Some? {
        LookupStable(table, pid, k, counter);
      }
      if Valid() {
        LookupFindsKey(table, pid, counter);
      }
    }

    /** Store `item` under `name`; a new name goes last in enumeration order. */
    method Put(name: string, item: Memory.Snapshot)
      requires MemoryOk()
      modifies this`memory, this`names
      ensures MemoryOk()
      ensures memory == old(memory)[name := item]
      ensures names == if name in old(memory) then old(names) else old(names) + [name]
    {
      if name !in memory {
        names := names + [name];
      }
      memory := memory[name := item];
    }

    /**
     * `memory(pid, value)`: store a value written by the entry with pid `pid`, under its
     * memory name and mode; an unknown pid is reported unless it is -1.
     */
    method WriteMemory(pid: int, value: Value) returns (ok: bool)
      requires Valid()
      modifies this
      ensures Valid()
      ensures ok == Lookup(old(table), pid, old(counter)).Some?
      ensures Abs() == Engine.WriteMemory(old(Abs()), pid, value)
    {
      var command := FindQueueByPid(pid);
      if command.Some? {
        var e := command.value;
        var origin := OriginOf(e);
        var item := new Memory.Memory(pid, ModeOf(e), origin, value);
        Put(origin, item.Store());
        return true;
      }
      if pid != -1 {
        reports := reports + [NoPid(pid)];
      }
      return false;
    }

    /**
     * `setMemory(name, value, mode)`: a user item with owner -1 and origin 'User', Garbage by
     * default; a Permanent write re-syncs the durable store.
     */
    method SetMemory(name: string, value: Value, mode: Option<MemoryMode>) returns (ok: bool)
      requires Valid()
      modifies this
      ensures Valid()
      ensures ok
      ensures Abs() == Engine.SetMemory(old(Abs()), name, value, mode)
    {
      var m := if mode.Some? then mode.value else Garbage;
      var item := new Memory.Memory(-1, m, "User", value);
      Put(name, item.Store());
      if m == Permanent {
        UpdateMemoryPerms();
      }
      return true;
    }

    /** Drop the item `name` from the memory store and from the enumeration order. */
    method Forget(name: string)
      requires MemoryOk()
      modifies this`memory, this`names
      ensures MemoryOk()
      ensures memory == old(memory) - {name}
      ensures names == KeepNames(old(names), old(memory).Keys - {name})
    {
      names := KeepNames(names, memory.Keys - {name});
      memory := memory - {name};
    }

    /** `deleteMemory(name)`: drop the item and re-sync the durable store. */
    method DeleteMemory(name: string) returns (ok: bool)
      requires Valid()
      modifies this
      ensures Valid()
      ensures ok
      ensures Abs() == Engine.DeleteMemory(old(Abs()), name)
    {
      Forget(name);
      UpdateMemoryPerms();
      return true;
    }

    /**
     * `_updateMemoryPerms()`: write a record for every Permanent item, in enumeration order,
     * and then the index of their names.
     */
    method UpdateMemoryPerms()
      modifies this`store, this`index
      ensures Abs() == Sync(old(Abs()))
    {
      var perms, records := SyncScan(memory, names);
      store := store + records;
      index := Intact(perms);
    }

    /** The loop of `_updateMemoryPerms`: the Permanent names of `ns` in order, and their records. */
    static method SyncScan(mem: map<string, Memory.Snapshot>, ns: seq<string>)
      returns (perms: seq<string>, records: map<string, Cookie<Memory.Snapshot>>)
      ensures perms == PermNames(mem, ns)
      ensures records == SyncRecords(mem, ns)
    {
      perms := [];
      records := map[];
      for i := 0 to |ns|
        invariant perms == PermNames(mem, ns[..i])
        invariant records == SyncRecords(mem, ns[..i])
      {
        var n := ns[i];
        assert ns[..i + 1] == ns[..i] + [n];
        PermNamesSnoc(mem, ns[..i], n);
        SyncRecordsSnoc(mem, ns[..i], n);
        if n in mem && mem[n].mode == Permanent {
          records := records + map[n := Intact(mem[n])];
          perms := perms + [n];
        }
      }
      assert ns[..|ns|] == ns;
    }

    /**
     * `_loadMemoryPerms()`: restore the items an intact index names, in order, stopping at the
     * first record that cannot be decoded.
     */
    method LoadMemoryPerms()
      requires Valid()
      modifies this
      ensures Valid()
      ensures Abs() == LoadPerms(old(Abs()))
    {
      if index.Intact? {
        var ns := index.contents;
        ghost var s0 := Abs();
        var i := 0;
        var intact := true;
        while i < |ns| && intact
          invariant 0 <= i <= |ns|
          invariant Valid()
          invariant store == s0.store && index == s0.index
          invariant intact ==> Restore(Abs(), ns[i..]) == Restore(s0, ns)
          invariant !intact ==> Abs() == Restore(s0, ns)
          decreases |ns| - i, intact
        {
          var n := ns[i];
          assert ns[i..][0] == n;
          if n in store && store[n].Intact? {
            var snap := store[n].contents;
            var item := new Memory.Memory(snap.pid, snap.mode, snap.origin, snap.value);
            assert ns[i..][1..] == ns[i + 1..];
            Put(n, item.Store());
            i := i + 1;
          } else {
            intact := false;
          }
        }
      }
    }

    /** `cleanMemory(pid)`: drop exactly the Garbage items owned by `pid`. */
    method CleanMemory(pid: int)
      requires MemoryOk()
      modifies this`memory, this`names
      ensures MemoryOk()
      ensures Abs() == Collect(old(Abs()), pid)
    {
      memory := CollectScan(memory, names, pid);
      names := KeepNames(names, memory.Keys);
    }

    /** The loop of `cleanMemory`: visit the names of `ns` and drop those that are `owner`'s Garbage. */
    static method CollectScan(m0: map<string, Memory.Snapshot>, ns: seq<string>, owner: int)
      returns (mem: map<string, Memory.Snapshot>)
      requires forall n :: n in m0 ==> n in ns
      ensures mem == map n | n in m0 && !IsGarbageOf(m0[n], owner) :: m0[n]
    {
      mem := m0;
      for i := 0 to |ns|
        invariant mem == map n | n in m0 && !(n in ns[..i] && IsGarbageOf(m0[n], owner)) :: m0[n]
      {
        var n := ns[i];
        assert ns[..i + 1] == ns[..i] + [n];
        if n in mem && IsGarbageOf(mem[n], owner) {
          mem := mem - {n};
        }
      }
      assert ns[..|ns|] == ns;
    }

    /** `isWork()`: the number of entries neither FINISHED nor ERROR. */
    method IsWork() returns (count: nat)
      requires Valid()
      ensures count == |ActiveKeys(table)|
    {
      count := 0;
      var k := 0;
      while k < counter
        invariant 0 <= k <= counter
        invariant count == |set j | j in table && j < k && table[j].state != QueueState.Finished && table[j].state != Error|
      {
        ghost var below := set j | j in table && j < k && table[j].state != QueueState.Finished && table[j].state != Error;
        if k in table && table[k].state != QueueState.Finished && table[k].state != Error {
          assert (set j | j in table && j < k + 1 && table[j].state != QueueState.Finished && table[j].state != Error) == below + {k};
          count := count + 1;
        } else {
          assert (set j | j in table && j < k + 1 && table[j].state != QueueState.Finished && table[j].state != Error) == below;
        }
        k := k + 1;
      }
      assert (set j | j in table && j < counter && table[j].state != QueueState.Finished && table[j].state != Error) == ActiveKeys(table);
    }

    /** `cleanQueue()`: delete every FINISHED entry. */
    method CleanQueue()
      requires forall k :: k in table ==> k < counter
      modifies this`table
      ensures table == Prune(old(table))
    {
      ghost var t0 := table;
      var k := 0;
      while k < counter
        invariant 0 <= k <= counter
        invariant table == map j | j in t0 && !(j < k && t0[j].state == QueueState.Finished) :: t0[j]
      {
        if k in table && table[k].state == QueueState.Finished {
          table := table - {k};
        }
        k := k + 1;
      }
      assert table == Prune(t0);
    }

    /**
     * `finished(pid, mode, error)`: the single completion point. A stopped entry is only
     * reported; FIN_ERROR halts the chain; otherwise the chain advances and a pass runs, or
     * the entry finishes, its Garbage memory is collected and FINISHED entries are pruned.
     */
    method Finished(pid: nat, mode: FinMode, error: string) returns (started: seq<nat>)
      requires Valid()
      requires pid in table
      modifies this
      ensures Valid()
      ensures Abs() == Finish(old(Abs()), pid, mode, error, evaluate)
      ensures started == FinishStarted(old(Abs()), pid, mode, error, evaluate)
    {
      started := [];
      var e := table[pid].(error := Some(error));
      if e.state != Running {
        table := table[pid := e];
        reports := reports + [NotRunning(pid)];
      } else if mode == FinError {
        table := table[pid := e.(state := Error)];
        reports := reports + [Errored(pid, error)];
      } else if |e.cmd.commands| > 0 {
        table := table[pid := Advance(e)];
        started := QueueProcess();
      } else {
        table := table[pid := e.(state := QueueState.Finished)];
        if e.pid.Some? {
          CleanMemory(e.pid.value);
        }
        CleanQueue();
      }
    }

    /** `setRegister(name)`: add the register if absent, then run one pass. */
    method SetRegister(name: string) returns (started: seq<nat>)
      requires Valid()
      modifies this
      ensures Valid()
      ensures Abs() == Engine.SetRegister(old(Abs()), name, evaluate)
      ensures started == Started(old(Abs()).(registers := AddRegister(old(registers), name)), evaluate)
    {
      if Find(registers, name) == -1 {
        registers := registers + [name];
      }
      started := QueueProcess();
    }

    /** `deleteRegister(name)`: splice the register out if present, then run one pass. */
    method DeleteRegister(name: string) returns (started: seq<nat>)
      requires Valid()
      modifies this
      ensures Valid()
      ensures Abs() == Engine.DeleteRegister(old(Abs()), name, evaluate)
      ensures started == Started(old(Abs()).(registers := RemoveRegister(old(registers), name)), evaluate)
    {
      var i := Find(registers, name);
      if i != -1 {
        registers := registers[..i] + registers[i + 1..];
      }
      started := QueueProcess();
    }
  }
}
