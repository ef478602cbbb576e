/**
 * The queue engine of Queue.js as a value: its whole state and one pure step function per
 * operation. The class in queue.dfy is proved to follow these steps; engine_props.dfy proves
 * what the steps promise.
 */
module Engine {
  import opened Define
  import opened Values
  import opened Memory

  /** `self.defaultTimer`: the dispatch delay when an entry sets none. */
  const DefaultTimer: nat := 10

  /** The recognised keys of a command's `options`; an absent key is None, `{}` is NoOptions. */
  datatype Options = Options(
    queueRun: Option<RunKind>,
    queueRegister: Option<string>,
    queueStatement: Option<string>,
    queueTimer: Option<nat>,
    memoryName: Option<string>,
    memoryMode: Option<MemoryMode>,
    queuePrepare: Option<string>)

  const NoOptions: Options := Options(None, None, None, None, None, None, None)

  /** A command as submitted: target queueable and command, arguments, options and the rest of its chain. */
  datatype Command = Command(
    queueable: string,
    command: string,
    json: Value,
    options: Options,
    commands: seq<Command>)

  /** A row of the live table: the current link of a chain plus its run-time fields. */
  datatype Entry = Entry(
    pid: Option<nat>,
    cmd: Command,
    state: QueueState,
    stack: map<string, Value>,
    error: Option<string>)

  /** What the engine knows of a registered queueable: its `ready` flag and its command names. */
  datatype Capability = Capability(ready: bool, commands: set<string>)

  /** A durable record: absent, present but undecodable, or decodable. */
  datatype Cookie<T> = Missing | Garbled | Intact(contents: T)

  /** The diagnostics `reportError` emits. */
  datatype Report =
    | NoQueueable(queueable: string)
    | NoPrepare(name: string)
    | Errored(pid: nat, message: string)
    | NotRunning(pid: nat)
    | NoPid(owner: int)

  /**
   * The evaluation of a free-code statement against the memory store: Some(result), or None
   * when the statement throws.
   */
  type Evaluator = (string, map<string, Snapshot>) -> Option<Value>

  /**
   * The engine: live table keyed by the process counter, prepared templates, queueables,
   * registers, memory (with the names in enumeration order), and the durable store (the index
   * record and one record per Permanent item), plus the diagnostics emitted so far.
   */
  datatype State = State(
    table: map<nat, Entry>,
    counter: nat,
    prepare: map<string, Command>,
    queueables: map<string, Capability>,
    registers: seq<string>,
    memory: map<string, Snapshot>,
    names: seq<string>,
    index: Cookie<seq<string>>,
    store: map<string, Cookie<Snapshot>>,
    reports: seq<Report>)

  predicate Distinct<T(==)>(xs: seq<T>) {
    forall i, j :: 0 <= i < j < |xs| ==> xs[i] != xs[j]
  }

  /**
   * The live table's invariant: keys were drawn from the counter, a set pid is the key, an
   * entry that left ADDED has its pid, and FINISHED entries never stay in the table.
   */
  predicate TableOk(t: map<nat, Entry>, counter: nat) {
    forall k :: k in t ==>
      && k < counter
      && t[k].state != Finished
      && (t[k].pid.Some? ==> t[k].pid.value == k)
      && (t[k].state != Added ==> t[k].pid == Some(k))
  }

  predicate NamesOk(names: seq<string>, keys: set<string>) {
    Distinct(names) && (forall n :: n in names ==> n in keys) && (forall n :: n in keys ==> n in names)
  }

  /** Every prepared template is stored under its own `queuePrepare` name. */
  predicate PrepareOk(prepare: map<string, Command>) {
    forall n :: n in prepare ==> prepare[n].options.queuePrepare == Some(n)
  }

  /**
   * The engine's invariant: a sound table, templates under their own names, a duplicate-free
   * register list and consistent memory names.
   */
  predicate Wf(s: State) {
    TableOk(s.table, s.counter) && PrepareOk(s.prepare) && Distinct(s.registers) && NamesOk(s.names, s.memory.Keys)
  }

  /** The first index of `x` in `xs`, or -1 (`Array.prototype.indexOf` on strings). */
  function Find<T(==)>(xs: seq<T>, x: T): (i: int)
    ensures -1 <= i < |xs|
    ensures i == -1 <==> x !in xs
    ensures 0 <= i ==> xs[i] == x && x !in xs[..i]
  {
    if xs == [] then -1
    else if xs[0] == x then 0
    else
      var k := Find(xs[1..], x);
      if k == -1 then -1
      else
        assert xs[..k + 1] == [xs[0]] + xs[1..][..k];
        k + 1
  }

  /** JavaScript truthiness of an optional string option: absent and "" are both false. */
  predicate Given(o: Option<string>) {
    o.Some? && o.value != ""
  }

  /**
   * A statement holds when its evaluation returns a truthy value. An evaluation that throws
   * (`None`) does not hold; `execute` propagates that throw (`ExecuteThrows`), while the
   * dispatch pass below treats it as a false statement and goes on.
   */
  predicate Holds(ev: Evaluator, code: string, mem: map<string, Snapshot>) {
    var r := ev(code, mem);
    r.Some? && Truthy(r.value)
  }

  // ---------------------------------------------------------------------------------------
  // Dispatch (queueProcess)

  predicate RegisterOk(o: Options, registers: seq<string>) {
    !Given(o.queueRegister) || o.queueRegister.value in registers
  }

  predicate StatementOk(o: Options, mem: map<string, Snapshot>, ev: Evaluator) {
    !Given(o.queueStatement) || Holds(ev, o.queueStatement.value, mem)
  }

  /**
   * An entry `queueProcess` starts: ADDED, its queueable registered and ready, its register
   * (if any) set and its statement (if any) true.
   */
  predicate Dispatchable(e: Entry, s: State, ev: Evaluator) {
    && e.state == Added
    && e.cmd.queueable in s.queueables
    && RegisterOk(e.cmd.options, s.registers)
    && StatementOk(e.cmd.options, s.memory, ev)
    && s.queueables[e.cmd.queueable].ready
  }

  /** `queueTimer || defaultTimer`. */
  function TimerOf(t: Option<nat>): nat {
    if t.Some? && t.value != 0 then t.value else DefaultTimer
  }

  /** The dispatch transition of the entry under key `k`. */
  function Launch(e: Entry, k: nat): Entry {
    e.(state := Running,
       pid := if e.pid.None? then Some(k) else e.pid,
       cmd := e.cmd.(options := e.cmd.options.(queueTimer := Some(TimerOf(e.cmd.options.queueTimer)))))
  }

  /** The table after one `queueProcess` pass. */
  function ProcessTable(s: State, ev: Evaluator): map<nat, Entry> {
    map k | k in s.table :: if Dispatchable(s.table[k], s, ev) then Launch(s.table[k], k) else s.table[k]
  }

  /**
   * The diagnostic a pass emits at key `k`: an ADDED entry whose queueable is unknown. An
   * inherited name finds the `Object.prototype` member, which is truthy and not ready, so
   * the entry is skipped without a report.
   */
  function UnfoundAt(t: map<nat, Entry>, queueables: map<string, Capability>, k: nat): seq<Report> {
    if k in t && t[k].state == Added && t[k].cmd.queueable !in queueables
       && t[k].cmd.queueable !in ObjectProperties
    then [NoQueueable(t[k].cmd.queueable)] else []
  }

  /** The diagnostics of one pass over keys below `n`, in key order. */
  function Unfound(t: map<nat, Entry>, queueables: map<string, Capability>, n: nat): seq<Report> {
    if n == 0 then [] else Unfound(t, queueables, n - 1) + UnfoundAt(t, queueables, n - 1)
  }

  /** The table of a pass that has visited the keys below `n`. */
  function PartialProcess(s: State, ev: Evaluator, n: nat): (t: map<nat, Entry>)
    ensures t.Keys == s.table.Keys
    ensures forall k :: k in s.table && n <= k ==> t[k] == s.table[k]
  {
    if n == 0 then s.table
    else
      var k := n - 1;
      var t := PartialProcess(s, ev, k);
      if k in s.table && Dispatchable(s.table[k], s, ev) then t[k := Launch(s.table[k], k)] else t
  }

  /** The keys below `n` one pass starts, in the order it starts them. */
  function StartedKeys(s: State, ev: Evaluator, n: nat): (r: seq<nat>)
    ensures forall i :: 0 <= i < |r| ==> r[i] < n && r[i] in s.table && Dispatchable(s.table[r[i]], s, ev)
    ensures forall k :: 0 <= k < n && k in s.table && Dispatchable(s.table[k], s, ev) ==> k in r
    ensures forall i, j :: 0 <= i < j < |r| ==> r[i] < r[j]
  {
    if n == 0 then []
    else
      var k := n - 1;
      StartedKeys(s, ev, k) + (if k in s.table && Dispatchable(s.table[k], s, ev) then [k] else [])
  }

  /** `queueProcess()`: start every dispatchable entry, report every unknown queueable. */
  function Process(s: State, ev: Evaluator): State {
    s.(table := ProcessTable(s, ev), reports := s.reports + Unfound(s.table, s.queueables, s.counter))
  }

  /** The keys `queueProcess()` starts, in key order. */
  function Started(s: State, ev: Evaluator): seq<nat> {
    StartedKeys(s, ev, s.counter)
  }

  // ---------------------------------------------------------------------------------------
  // Submission (commandsQueue) and prepared queues (execute)

  /** A submitted command as it enters the table: ADDED, empty stack, no pid, no error. */
  function Normalize(c: Command): Entry {
    Entry(None, c, Added, map[], None)
  }

  /** One command of `commandsQueue`: Instant ones take the next key, `queuePrepare` ones are registered. */
  function SubmitOne(s: State, c: Command): State {
    var s1 :=
      if c.options.queueRun == Some(Instant)
      then s.(table := s.table[s.counter := Normalize(c)], counter := s.counter + 1)
      else s;
    if c.options.queuePrepare.Some? then s1.(prepare := s1.prepare[c.options.queuePrepare.value := c]) else s1
  }

  /** The commands of one `commandsQueue` call, in order. */
  function SubmitAll(s: State, cs: seq<Command>): (r: State)
    ensures s.table.Keys <= r.table.Keys && s.counter <= r.counter
    ensures r == s.(table := r.table, counter := r.counter, prepare := r.prepare)
    decreases |cs|
  {
    if cs == [] then s else SubmitOne(SubmitAll(s, cs[..|cs| - 1]), cs[|cs| - 1])
  }

  /** `commandsQueue(cs)`: submit, then one `queueProcess` pass. */
  function CommandsQueue(s: State, cs: seq<Command>, ev: Evaluator): State {
    Process(SubmitAll(s, cs), ev)
  }

  /** The copy `execute` submits: marked Instant, its json merged with the caller's. */
  function Clone(t: Command, json: Option<Value>): Command {
    t.(options := t.options.(queueRun := Some(Instant)),
       json := if json.Some? then Assign(t.json, json.value) else t.json)
  }

  /** Whether `execute(name)` submits a copy: the template exists and its own statement holds. */
  predicate Runs(s: State, name: string, ev: Evaluator) {
    name in s.prepare && StatementOk(s.prepare[name].options, s.memory, ev)
  }

  /**
   * Whether `execute(name, json)` throws. An inherited name that is not a template finds an
   * `Object.prototype` member, whose `options` is undefined. Otherwise it throws when the
   * template's statement throws when evaluated, or when the statement passes and the caller's
   * json is merged into a template json that is undefined or null. Nothing is changed before
   * any of these throws.
   */
  predicate ExecuteThrows(s: State, name: string, json: Option<Value>, ev: Evaluator) {
    if name !in s.prepare then name in ObjectProperties
    else
      var o := s.prepare[name].options;
      || (Given(o.queueStatement) && ev(o.queueStatement.value, s.memory).None?)
      || (Runs(s, name, ev) && json.Some? && AssignThrows(s.prepare[name].json))
  }

  /**
   * The text of the exception `execute` throws: the evaluator's own message is not modelled,
   * so a throwing statement gets a fixed text naming the queue.
   */
  function ExecuteError(s: State, name: string, ev: Evaluator): string {
    if name !in s.prepare then "TypeError: Cannot read properties of undefined (reading 'queueStatement')"
    else if Runs(s, name, ev) then "TypeError: Cannot convert undefined or null to object"
    else "Error: queueStatement of [" + name + "] threw"
  }

  /** `execute(name, json, silentFail)`; a throw leaves the state as it was. */
  function Execute(s: State, name: string, json: Option<Value>, silent: bool, ev: Evaluator): State {
    if ExecuteThrows(s, name, json, ev) then s
    else if name !in s.prepare then
      (if silent then s else s.(reports := s.reports + [NoPrepare(name)]))
    else if !Runs(s, name, ev) then s
    else CommandsQueue(s, [Clone(s.prepare[name], json)], ev)
  }

  /** The keys the pass inside `execute` starts. */
  function ExecuteStarted(s: State, name: string, json: Option<Value>, ev: Evaluator): seq<nat> {
    if Runs(s, name, ev) && !ExecuteThrows(s, name, json, ev) then
      Started(SubmitAll(s, [Clone(s.prepare[name], json)]), ev)
    else []
  }

  // ---------------------------------------------------------------------------------------
  // Completion (finished, cleanMemory, cleanQueue)

  /** Shift the first link of the chain into the entry and re-queue it. */
  function Advance(e: Entry): Entry
    requires |e.cmd.commands| > 0
  {
    var link := e.cmd.commands[0];
    e.(cmd := Command(link.queueable, link.command, link.json, link.options, e.cmd.commands[1..]),
       state := Added)
  }

  predicate IsGarbageOf(item: Snapshot, owner: int) {
    item.pid == owner && item.mode == Garbage
  }

  /** The names of `ns` that are in `keep`, in order. */
  function KeepNames(ns: seq<string>, keep: set<string>): (r: seq<string>)
    ensures forall n :: n in r <==> n in ns && n in keep
    ensures Distinct(ns) ==> Distinct(r)
  {
    if ns == [] then []
    else
      var rest := KeepNames(ns[1..], keep);
      assert forall n :: n in ns[1..] ==> n in ns;
      if ns[0] in keep then [ns[0]] + rest else rest
  }

  /** `cleanMemory(owner)`: drop exactly the Garbage items owned by `owner`. */
  function Collect(s: State, owner: int): State {
    var mem := map n | n in s.memory && !IsGarbageOf(s.memory[n], owner) :: s.memory[n];
    s.(memory := mem, names := KeepNames(s.names, mem.Keys))
  }

  /** `cleanQueue()`: delete every FINISHED entry. */
  function Prune(t: map<nat, Entry>): map<nat, Entry> {
    map k | k in t && t[k].state != Finished :: t[k]
  }

  /** Whether `finished(pid, mode)` continues the chain (and so runs a pass). */
  predicate Continues(s: State, pid: nat, mode: FinMode)
    requires pid in s.table
  {
    s.table[pid].state == Running && mode != FinError && |s.table[pid].cmd.commands| > 0
  }

  /** `finished(pid, mode, error)`. */
  function Finish(s: State, pid: nat, mode: FinMode, error: string, ev: Evaluator): State
    requires pid in s.table
  {
    var e := s.table[pid].(error := Some(error));
    if e.state != Running then
      s.(table := s.table[pid := e], reports := s.reports + [NotRunning(pid)])
    else if mode == FinError then
      s.(table := s.table[pid := e.(state := Error)], reports := s.reports + [Errored(pid, error)])
    else if |e.cmd.commands| > 0 then
      Process(s.(table := s.table[pid := Advance(e)]), ev)
    else
      var s1 := s.(table := s.table[pid := e.(state := Finished)]);
      var s2 := if e.pid.Some? then Collect(s1, e.pid.value) else s1;
      s2.(table := Prune(s2.table))
  }

  /** The keys the pass inside `finished` starts. */
  function FinishStarted(s: State, pid: nat, mode: FinMode, error: string, ev: Evaluator): seq<nat>
    requires pid in s.table
  {
    if Continues(s, pid, mode)
    then Started(s.(table := s.table[pid := Advance(s.table[pid].(error := Some(error)))]), ev)
    else []
  }

  /** `isWork()`: the keys of entries neither FINISHED nor ERROR. */
  function ActiveKeys(t: map<nat, Entry>): set<nat> {
    set k | k in t && t[k].state != Finished && t[k].state != Error
  }

  // ---------------------------------------------------------------------------------------
  // Memory store, registers and the durable store

  /** Store `item` under `name`; a new name goes last in enumeration order. */
  function Put(s: State, name: string, item: Snapshot): State {
    s.(memory := s.memory[name := item], names := if name in s.memory then s.names else s.names + [name])
  }

  /** `findQueueByPid(pid)` over the keys below `n`: the first entry whose pid is `pid`. */
  function Lookup(t: map<nat, Entry>, pid: int, n: nat): Option<Entry> {
    if n == 0 then None
    else
      var r := Lookup(t, pid, n - 1);
      if r.Some? then r
      else if n - 1 in t && t[n - 1].pid.Some? && t[n - 1].pid.value == pid then Some(t[n - 1])
      else None
  }

  /** The memory name an entry writes under: `memoryName`, else "queueable.command". */
  function OriginOf(e: Entry): string {
    if Given(e.cmd.options.memoryName) then e.cmd.options.memoryName.value
    else e.cmd.queueable + "." + e.cmd.command
  }

  /** The mode an entry writes with: `memoryMode`, else Garbage. */
  function ModeOf(e: Entry): MemoryMode {
    if e.cmd.options.memoryMode.Some? then e.cmd.options.memoryMode.value else Garbage
  }

  /** `memory(pid, value)`. */
  function WriteMemory(s: State, pid: int, value: Value): State {
    var found := Lookup(s.table, pid, s.counter);
    if found.Some? then
      var e := found.value;
      Put(s, OriginOf(e), Snapshot(pid, ModeOf(e), OriginOf(e), value))
    else if pid != -1 then s.(reports := s.reports + [NoPid(pid)])
    else s
  }

  /** The Permanent names among `ns`, in order: the index `_updateMemoryPerms` writes. */
  function PermNames(mem: map<string, Snapshot>, ns: seq<string>): (r: seq<string>)
    ensures forall n :: n in r <==> n in ns && n in mem && mem[n].mode == Permanent
    ensures Distinct(ns) ==> Distinct(r)
    decreases |ns|
  {
    if ns == [] then []
    else
      var last := ns[|ns| - 1];
      var rest := PermNames(mem, ns[..|ns| - 1]);
      assert forall n :: n in ns[..|ns| - 1] ==> n in ns;
      assert Distinct(ns) ==> last !in ns[..|ns| - 1];
      if last in mem && mem[last].mode == Permanent then rest + [last] else rest
  }

  /** The per-item records `_updateMemoryPerms` writes for the names `ns`, in order. */
  function SyncRecords(mem: map<string, Snapshot>, ns: seq<string>): map<string, Cookie<Snapshot>>
    decreases |ns|
  {
    if ns == [] then map[]
    else
      var last := ns[|ns| - 1];
      SyncRecords(mem, ns[..|ns| - 1])
        + if last in mem && mem[last].mode == Permanent then map[last := Intact(mem[last])] else map[]
  }

  /** `_updateMemoryPerms()`: write every Permanent item and the index of their names. */
  function Sync(s: State): State {
    s.(store := s.store + SyncRecords(s.memory, s.names), index := Intact(PermNames(s.memory, s.names)))
  }

  /** `setMemory(name, value, mode)`: a user item (owner -1, origin 'User'), Garbage by default. */
  function SetMemory(s: State, name: string, value: Value, mode: Option<MemoryMode>): (r: State)
    ensures r == s.(memory := r.memory, names := r.names, index := r.index, store := r.store)
  {
    var m := if mode.Some? then mode.value else Garbage;
    var s1 := Put(s, name, Snapshot(-1, m, "User", value));
    if m == Permanent then Sync(s1) else s1
  }

  /** `deleteMemory(name)`: drop the item, then re-sync the durable store. */
  function DeleteMemory(s: State, name: string): (r: State)
    ensures r == s.(memory := r.memory, names := r.names, index := r.index, store := r.store)
  {
    Sync(s.(memory := s.memory - {name}, names := KeepNames(s.names, s.memory.Keys - {name})))
  }

  /** The register list after `setRegister(name)`: appended only when absent. */
  function AddRegister(rs: seq<string>, name: string): (r: seq<string>)
    ensures forall n :: n in r <==> n in rs || n == name
    ensures Distinct(rs) ==> Distinct(r)
    ensures |r| == if name in rs then |rs| else |rs| + 1
    ensures r[..|rs|] == rs
  {
    if name in rs then rs else rs + [name]
  }

  /** The register list after `deleteRegister(name)`: its first occurrence spliced out. */
  function RemoveRegister(rs: seq<string>, name: string): (r: seq<string>)
    ensures Distinct(rs) ==> Distinct(r) && forall n :: n in r <==> n in rs && n != name
    ensures |r| == if name in rs then |rs| - 1 else |rs|
  {
    var i := Find(rs, name);
    if i == -1 then rs
    else
      var r := rs[..i] + rs[i + 1..];
      assert forall a :: 0 <= a < |r| ==> r[a] == if a < i then rs[a] else rs[a + 1];
      r
  }

  function SetRegister(s: State, name: string, ev: Evaluator): State {
    Process(s.(registers := AddRegister(s.registers, name)), ev)
  }

  function DeleteRegister(s: State, name: string, ev: Evaluator): State {
    Process(s.(registers := RemoveRegister(s.registers, name)), ev)
  }

  /** Restore the items named by `ns` in order, stopping at the first record that is not intact. */
  function Restore(s: State, ns: seq<string>): State
    decreases |ns|
  {
    if ns == [] then s
    else if ns[0] in s.store && s.store[ns[0]].Intact? then Restore(Put(s, ns[0], s.store[ns[0]].contents), ns[1..])
    else s
  }

  /** `_loadMemoryPerms()`: restore what an intact index names; a missing or garbled index restores nothing. */
  function LoadPerms(s: State): State {
    if s.index.Intact? then Restore(s, s.index.contents) else s
  }

  /**
   * `checkQueueable(name, obj)`: a new queueable is booted, and the base `init` makes it
   * ready. An inherited name is never `undefined`, so it is never booted.
   */
  function CheckQueueable(s: State, name: string, commands: set<string>): State {
    if name in s.queueables || name in ObjectProperties then s else s.(queueables := s.queueables[name := Capability(true, commands)])
  }

  // ---------------------------------------------------------------------------------------
  // Command text (commandParse): the head split and the queueRun default

  datatype Head = Head(queueable: string, command: Option<string>)

  /** The part of `s` before the first occurrence of `c`, or None when `c` does not occur. */
  function Before(s: string, c: char): (r: Option<string>)
    ensures r.Some? ==> c !in r.value && |r.value| < |s| && s[..|r.value|] == r.value && s[|r.value|] == c
    ensures r.None? ==> c !in s
  {
    if s == [] then None
    else if s[0] == c then Some([])
    else
      var rest := Before(s[1..], c);
      if rest.Some? then Some([s[0]] + rest.value) else None
  }

  /**
   * The head of `queueable.command(args, options);`: the text before the first '(' split on
   * '.'; its first piece is the queueable and its second (if any) the command. No '(' at all
   * makes the source's match fail.
   */
  function ParseHead(text: string): Option<Head> {
    var callee := Before(text, '(');
    if callee.None? then None
    else
      var q := Before(callee.value, '.');
      if q.None? then Some(Head(callee.value, None))
      else
        var rest := callee.value[|q.value| + 1..];
        var c := Before(rest, '.');
        Some(Head(q.value, Some(if c.Some? then c.value else rest)))
  }

  /** `options.queueRun || (isParent ? Event : Sub)`. */
  function DefaultRun(given: Option<RunKind>, isParent: bool): RunKind {
    if given.Some? then given.value else if isParent then Event else Sub
  }
}
