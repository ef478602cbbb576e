/**
 * The built-in queueable (Queueable/Internals.js): fourteen commands that drive the engine
 * itself — prepared queues, statements, memory items and registers. Each command body is a
 * pure "edit" of the engine state that either returns or throws; a returning body then
 * finishes its entry with FIN_OK. The methods take the queueable they run on as `self`, since
 * this queueable only adds commands to the base class of queueable.dfy.
 */
module Internals {
  import opened Define
  import opened Values
  import opened Engine
  import opened Queueable
  import Memory
  import Queue
  import SubmitProps
  import DispatchProps
  import FinishProps
  import MemoryProps
  import RegisterProps

  /** The command names this queueable has. */
  const Commands: set<string> := {
    "execute", "run", "eval", "ifqueue", "setMemory", "toggleMemory", "mergeMemory",
    "pushMemory", "setRegister", "deleteRegister", "deleteMemory", "nop", "debug", "console"}

  /** The commands of this queueable. */
  datatype Cmd =
    | ExecuteCmd | RunCmd | EvalCmd | IfQueueCmd
    | SetMemoryCmd | ToggleMemoryCmd | MergeMemoryCmd | PushMemoryCmd
    | SetRegisterCmd | DeleteRegisterCmd | DeleteMemoryCmd
    | NopCmd | DebugCmd | ConsoleCmd

  /** `self[command]`: the command a name selects; exactly the names in `Commands` select one. */
  function CommandOf(command: string): (c: Option<Cmd>)
    ensures c.Some? <==> command in Commands
  {
    if command == "execute" then Some(ExecuteCmd)
    else if command == "run" then Some(RunCmd)
    else if command == "eval" then Some(EvalCmd)
    else if command == "ifqueue" then Some(IfQueueCmd)
    else if command == "setMemory" then Some(SetMemoryCmd)
    else if command == "toggleMemory" then Some(ToggleMemoryCmd)
    else if command == "mergeMemory" then Some(MergeMemoryCmd)
    else if command == "pushMemory" then Some(PushMemoryCmd)
    else if command == "setRegister" then Some(SetRegisterCmd)
    else if command == "deleteRegister" then Some(DeleteRegisterCmd)
    else if command == "deleteMemory" then Some(DeleteMemoryCmd)
    else if command == "nop" then Some(NopCmd)
    else if command == "debug" then Some(DebugCmd)
    else if command == "console" then Some(ConsoleCmd)
    else None
  }

  /** How a command body ended and the engine state it left behind. */
  datatype Effect = Effect(outcome: Outcome, after: State)

  // ---------------------------------------------------------------------------------------
  // Reading the arguments

  /** `undefined` and `null`: reading any property of them throws. */
  predicate Nullish(v: Value) {
    v.Undefined? || v.Null?
  }

  /** The text of the TypeError a property read on a nullish value throws. */
  function NoProperties(v: Value): string {
    "TypeError: Cannot read properties of " + ToKey(v)
  }

  /** The text of the TypeError a property write on a primitive throws in strict code. */
  function CannotCreate(key: string, v: Value): string {
    "TypeError: Cannot create property '" + key + "' on " + ToKey(v)
  }

  /** `json.name` used as a property key. */
  function Name(json: Value): string {
    ToKey(Get(json, "name"))
  }

  /**
   * `json.mode` as `setMemory` reads it: a falsy mode means Garbage, "Garbage" and
   * "Permanent" name their modes, and any other truthy mode behaves as Session.
   */
  function ModeArg(v: Value): Option<MemoryMode> {
    if !Truthy(v) then None
    else if v == Str(ModeName(Garbage)) then Some(Garbage)
    else if v == Str(ModeName(Permanent)) then Some(Permanent)
    else Some(Session)
  }

  /** `json.json`: the arguments passed on to a prepared queue, absent when undefined. */
  function JsonArg(json: Value): Option<Value> {
    var j := Get(json, "json");
    if j.Undefined? then None else Some(j)
  }

  /** `eval(statement)`: a string is evaluated (None when it throws), any other value is its own result. */
  function Evaluate(statement: Value, mem: map<string, Memory.Snapshot>, ev: Evaluator): Option<Value> {
    if statement.Str? then ev(statement.s, mem) else Some(statement)
  }

  /** `r` differs from `s` at most in the memory store and the durable store. */
  predicate MemoryOnly(s: State, r: State) {
    r == s.(memory := r.memory, names := r.names, index := r.index, store := r.store)
  }

  // ---------------------------------------------------------------------------------------
  // The command bodies as edits of the engine state

  /**
   * A command body's call `this.queue.execute(name, json, silent)`: it throws, changing nothing,
   * or returns with the queue run.
   */
  function Executed(s: State, name: string, json: Option<Value>, silent: bool, ev: Evaluator): (r: Effect)
    ensures r.outcome.Threw? <==> ExecuteThrows(s, name, json, ev)
    ensures r.outcome.Threw? ==> r.after == s && r.outcome.message == ExecuteError(s, name, ev)
    ensures s.table.Keys <= r.after.table.Keys
  {
    if ExecuteThrows(s, name, json, ev) then Effect(Threw(ExecuteError(s, name, ev)), s)
    else
      SubmitProps.ExecuteKeepsKeys(s, name, json, silent, ev);
      Effect(Returned, Engine.Execute(s, name, json, silent, ev))
  }

  /** `execute`: run the prepared queue `json.name` with `json.json`, silently when `json.silentFail` is true. */
  function ExecuteEdit(s: State, json: Value, ev: Evaluator): (r: Effect)
    ensures r.outcome.Threw? ==> r.after == s
    ensures r.outcome.Threw? <==> Nullish(json) || ExecuteThrows(s, Name(json), JsonArg(json), ev)
    ensures s.table.Keys <= r.after.table.Keys
  {
    if Nullish(json) then Effect(Threw(NoProperties(json)), s)
    else Executed(s, Name(json), JsonArg(json), Get(json, "silentFail") == Bool(true), ev)
  }

  /** `run`: calls its arguments, which are never a function, so it always throws. */
  function RunEdit(s: State, json: Value): (r: Effect)
    ensures r.outcome.Threw? && r.after == s
  {
    Effect(Threw("TypeError: json is not a function"), s)
  }

  /** The memory name `eval` writes: `json.name`, else "evalResult". */
  function EvalName(json: Value): string {
    if Truthy(Get(json, "name")) then ToKey(Get(json, "name")) else "evalResult"
  }

  /** `eval`: store the statement's result (undefined when it throws) as a Session item. */
  function EvalEdit(s: State, json: Value, ev: Evaluator): (r: Effect)
    ensures r.outcome.Threw? ==> r.after == s
    ensures MemoryOnly(s, r.after)
  {
    if Nullish(json) then Effect(Threw(NoProperties(json)), s)
    else if !json.Obj? && !json.Arr? then Effect(Threw(CannotCreate("name", json)), s)
    else
      var result := Evaluate(Get(json, "statement"), s.memory, ev);
      Effect(Returned, Engine.SetMemory(s, EvalName(json), if result.Some? then result.value else Undefined, Some(Session)))
  }

  /**
   * `ifqueue`: when the statement is truthy (a throw counts as false) execute `json.name`,
   * otherwise execute `json.else` when it is given; both calls report a missing queue, and a
   * throw from either call is the command's own.
   */
  function IfQueueEdit(s: State, json: Value, ev: Evaluator): (r: Effect)
    ensures r.outcome.Threw? ==> r.after == s
    ensures s.table.Keys <= r.after.table.Keys
  {
    if Nullish(json) then Effect(Threw(NoProperties(json)), s)
    else
      var result := Evaluate(Get(json, "statement"), s.memory, ev);
      if result.Some? && Truthy(result.value) then Executed(s, Name(json), JsonArg(json), false, ev)
      else if Truthy(Get(json, "else")) then Executed(s, ToKey(Get(json, "else")), JsonArg(json), false, ev)
      else Effect(Returned, s)
  }

  /** `setMemory`: store `json.value` as a user item under `json.name` with `json.mode`. */
  function SetMemoryEdit(s: State, json: Value): (r: Effect)
    ensures r.outcome.Threw? ==> r.after == s
    ensures MemoryOnly(s, r.after)
  {
    if Nullish(json) then Effect(Threw(NoProperties(json)), s)
    else Effect(Returned, Engine.SetMemory(s, Name(json), Get(json, "value"), ModeArg(Get(json, "mode"))))
  }

  /**
   * `toggleMemory`: negate the item's value in place; a missing item throws. An inherited
   * name finds an `Object.prototype` member, whose `value` property is written instead, and
   * memory is left as it was.
   */
  function ToggleMemoryEdit(s: State, json: Value): (r: Effect)
    ensures r.outcome.Threw? ==> r.after == s
    ensures MemoryOnly(s, r.after)
  {
    if Nullish(json) then Effect(Threw(NoProperties(json)), s)
    else if Name(json) !in s.memory && Name(json) in ObjectProperties then Effect(Returned, s)
    else if Name(json) !in s.memory then Effect(Threw(NoProperties(Undefined)), s)
    else
      var item := s.memory[Name(json)];
      Effect(Returned, s.(memory := s.memory[Name(json) := item.(value := Bool(!Truthy(item.value)))]))
  }

  /**
   * `mergeMemory`: copy each key of the object `json.values` into the item's value. No key,
   * no write; a missing item throws, and so does a primitive value (strict code); an object
   * value takes the keys, and an array value is left as it is.
   */
  function MergeMemoryEdit(s: State, json: Value): (r: Effect)
    ensures r.outcome.Threw? ==> r.after == s
    ensures MemoryOnly(s, r.after)
  {
    if Nullish(json) then Effect(Threw(NoProperties(json)), s)
    else
      var values := Get(json, "values");
      if !values.Obj? || values.fields == map[] then Effect(Returned, s)
      else if Name(json) !in s.memory then Effect(Threw(NoProperties(Undefined)), s)
      else
        var item := s.memory[Name(json)];
        if item.value.Obj? then
          Effect(Returned, s.(memory := s.memory[Name(json) := item.(value := Assign(item.value, values))]))
        else if item.value.Arr? then Effect(Returned, s)
        else Effect(Threw(CannotCreate("values", item.value)), s)
  }

  /**
   * The array `pushMemory` stores: with `toggle` the first element strictly equal to `v` is
   * spliced out, or `v` appended when there is none; without it `v` is appended.
   */
  function Pushed(items: seq<Value>, v: Value, toggle: bool): seq<Value> {
    var i := if toggle then IndexOf(items, v) else -1;
    if i == -1 then items + [v] else items[..i] + items[i + 1..]
  }

  /** The array `pushMemory` starts from: the item's value, or [] when there is no item. */
  function PushBase(s: State, name: string): seq<Value>
    requires name in s.memory ==> s.memory[name].value.Arr?
  {
    if name in s.memory then s.memory[name].value.items else []
  }

  /**
   * `pushMemory`: push `json.value` onto the item's array (toggling it when `json.toggle` is
   * true) and store the array as a user item with `json.mode`; a value that is not an array
   * throws, and so does an inherited name, whose `Object.prototype` member has no `value`.
   */
  function PushMemoryEdit(s: State, json: Value): (r: Effect)
    ensures r.outcome.Threw? ==> r.after == s
    ensures MemoryOnly(s, r.after)
  {
    if Nullish(json) then Effect(Threw(NoProperties(json)), s)
    else if Name(json) !in s.memory && Name(json) in ObjectProperties then
      Effect(Threw(NoProperties(Undefined)), s)
    else if Name(json) in s.memory && !s.memory[Name(json)].value.Arr? then
      Effect(Threw("TypeError: modArray.push is not a function"), s)
    else
      var items := Pushed(PushBase(s, Name(json)), Get(json, "value"), Get(json, "toggle") == Bool(true));
      Effect(Returned, Engine.SetMemory(s, Name(json), Arr(items), ModeArg(Get(json, "mode"))))
  }

  /** `setRegister`: set the register `json.name` and run a pass. */
  function SetRegisterEdit(s: State, json: Value, ev: Evaluator): (r: Effect)
    ensures r.outcome.Threw? ==> r.after == s
    ensures r.after.table.Keys == s.table.Keys
  {
    if Nullish(json) then Effect(Threw(NoProperties(json)), s)
    else Effect(Returned, Engine.SetRegister(s, Name(json), ev))
  }

  /** `deleteRegister`: clear the register `json.name` and run a pass. */
  function DeleteRegisterEdit(s: State, json: Value, ev: Evaluator): (r: Effect)
    ensures r.outcome.Threw? ==> r.after == s
    ensures r.after.table.Keys == s.table.Keys
  {
    if Nullish(json) then Effect(Threw(NoProperties(json)), s)
    else Effect(Returned, Engine.DeleteRegister(s, Name(json), ev))
  }

  /** `deleteMemory`: drop the item `json.name` and re-sync the durable store. */
  function DeleteMemoryEdit(s: State, json: Value): (r: Effect)
    ensures r.outcome.Threw? ==> r.after == s
    ensures MemoryOnly(s, r.after)
  {
    if Nullish(json) then Effect(Threw(NoProperties(json)), s)
    else Effect(Returned, Engine.DeleteMemory(s, Name(json)))
  }

  /** `console`: logs `json.log`, which only the read of it can make throw. */
  function ConsoleEdit(s: State, json: Value): (r: Effect)
    ensures r.after == s
  {
    if Nullish(json) then Effect(Threw(NoProperties(json)), s) else Effect(Returned, s)
  }

  /** The body of a command; `nop` and `debug` change nothing. */
  function Edit(s: State, c: Cmd, json: Value, ev: Evaluator): (r: Effect)
    ensures r.outcome.Threw? ==> r.after == s
    ensures s.table.Keys <= r.after.table.Keys
  {
    match c
    case ExecuteCmd => ExecuteEdit(s, json, ev)
    case RunCmd => RunEdit(s, json)
    case EvalCmd => EvalEdit(s, json, ev)
    case IfQueueCmd => IfQueueEdit(s, json, ev)
    case SetMemoryCmd => SetMemoryEdit(s, json)
    case ToggleMemoryCmd => ToggleMemoryEdit(s, json)
    case MergeMemoryCmd => MergeMemoryEdit(s, json)
    case PushMemoryCmd => PushMemoryEdit(s, json)
    case SetRegisterCmd => SetRegisterEdit(s, json, ev)
    case DeleteRegisterCmd => DeleteRegisterEdit(s, json, ev)
    case DeleteMemoryCmd => DeleteMemoryEdit(s, json)
    case ConsoleCmd => ConsoleEdit(s, json)
    case NopCmd => Effect(Returned, s)
    case DebugCmd => Effect(Returned, s)
  }

  /** A body that returned is followed by `finished(pid, FIN_OK)`; a throw propagates. */
  function Finishing(pid: int, e: Effect, ev: Evaluator): Effect
    requires e.outcome.Threw? || Finishable(e.after.table, pid)
  {
    if e.outcome.Threw? then e else Effect(Returned, Done(e.after, pid, FinOk, "", ev))
  }

  /** `self[command](pid, json)`. */
  function Op(s: State, pid: int, c: Cmd, json: Value, ev: Evaluator): Effect
    requires Finishable(s.table, pid)
  {
    Finishing(pid, Edit(s, c, json, ev), ev)
  }

  /** `start(pid, command, json)` on this queueable. */
  function Handle(s: State, pid: nat, command: string, json: Value, ev: Evaluator): State
    requires pid in s.table
  {
    var c := CommandOf(command);
    if c.Some? then
      var e := Op(s, pid, c.value, json, ev);
      StartStep(e.after, Commands, pid, command, e.outcome, ev)
    else StartStep(s, Commands, pid, command, Returned, ev)
  }

  // ---------------------------------------------------------------------------------------
  // Properties of the commands

  /** The mode names round-trip through `json.mode`, and only a falsy mode defaults. */
  lemma ModeArgNames(m: MemoryMode, v: Value)
    ensures ModeArg(Str(ModeName(m))) == Some(m)
    ensures ModeArg(v).None? <==> !Truthy(v)
  {
  }

  /**
   * Toggling a primitive value that is listed removes one occurrence and toggling one that is
   * not listed adds it once; no other value's count changes.
   */
  lemma PushedToggleCounts(items: seq<Value>, v: Value)
    requires IsPrimitive(v)
    ensures var r := Pushed(items, v, true);
      && multiset(r)[v] == (if v in items then multiset(items)[v] - 1 else 1)
      && |r| == (if v in items then |items| - 1 else |items| + 1)
      && forall w :: w != v ==> multiset(r)[w] == multiset(items)[w]
  {
    var i := IndexOf(items, v);
    if i == -1 {
      assert v !in items by {
        forall j | 0 <= j < |items| ensures items[j] != v {
          assert !StrictEquals(items[j], v);
        }
      }
    } else {
      assert items == items[..i] + [v] + items[i + 1..];
      assert multiset(items) == multiset(items[..i]) + multiset{v} + multiset(items[i + 1..]);
    }
  }

  /** Toggling a primitive value in twice undoes the first toggle when it was not listed. */
  lemma PushedToggleTwice(items: seq<Value>, v: Value)
    requires IsPrimitive(v) && v !in items
    ensures Pushed(Pushed(items, v, true), v, true) == items
  {
    PushedToggleCounts(items, v);
    var once := items + [v];
    assert Pushed(items, v, true) == once;
    assert forall j :: 0 <= j < |items| ==> !StrictEquals(once[j], v);
    assert IndexOf(once, v) == |items|;
    assert once[..|items|] == items;
  }

  /** An array or object value is never strictly equal to a listed one, so toggling it always appends. */
  lemma PushedCompound(items: seq<Value>, v: Value)
    requires !IsPrimitive(v)
    ensures Pushed(items, v, true) == items + [v]
  {
  }

  /**
   * `pushMemory` on a missing item or an array item stores the pushed array as a user item
   * (owner -1, origin 'User', mode from `json.mode`); every other item is kept. A missing
   * item under an inherited name throws instead, and nothing changes.
   */
  lemma PushMemoryStores(s: State, json: Value)
    requires NamesOk(s.names, s.memory.Keys) && !Nullish(json)
    requires Name(json) in s.memory ==> s.memory[Name(json)].value.Arr?
    ensures Name(json) !in s.memory && Name(json) in ObjectProperties ==>
      PushMemoryEdit(s, json).outcome.Threw? && PushMemoryEdit(s, json).after == s
    ensures var r := PushMemoryEdit(s, json);
      Name(json) in s.memory || Name(json) !in ObjectProperties ==>
      var m := ModeArg(Get(json, "mode"));
      var items := Pushed(PushBase(s, Name(json)), Get(json, "value"), Get(json, "toggle") == Bool(true));
      && r.outcome == Returned
      && r.after.memory == s.memory[Name(json) := Memory.Snapshot(-1, if m.Some? then m.value else Garbage, "User", Arr(items))]
      && NamesOk(r.after.names, r.after.memory.Keys)
  {
    var items := Pushed(PushBase(s, Name(json)), Get(json, "value"), Get(json, "toggle") == Bool(true));
    MemoryProps.SetMemoryStores(s, Name(json), Arr(items), ModeArg(Get(json, "mode")));
  }

  /**
   * `toggleMemory` flips the truthiness of the item's value, keeps its owner, mode and origin
   * and every other item, and does not touch the durable store.
   */
  lemma ToggleMemoryFlips(s: State, json: Value)
    requires !Nullish(json) && Name(json) in s.memory
    ensures var r := ToggleMemoryEdit(s, json);
      var before := s.memory[Name(json)];
      && r.outcome == Returned
      && r.after.memory.Keys == s.memory.Keys
      && r.after.memory[Name(json)].value.Bool?
      && (Truthy(r.after.memory[Name(json)].value) <==> !Truthy(before.value))
      && r.after.memory[Name(json)].(value := before.value) == before
      && (forall n :: n in s.memory && n != Name(json) ==> r.after.memory[n] == s.memory[n])
      && r.after.names == s.names && r.after.store == s.store && r.after.index == s.index
  {
  }

  /**
   * `toggleMemory` on a missing item throws, except under an inherited name, where it
   * returns; either way memory is unchanged.
   */
  lemma ToggleMemoryMissing(s: State, json: Value)
    requires !Nullish(json) && Name(json) !in s.memory
    ensures ToggleMemoryEdit(s, json).outcome == Returned <==> Name(json) in ObjectProperties
    ensures ToggleMemoryEdit(s, json).after == s
  {
  }

  /** Toggling a boolean item twice gives the memory store back. */
  lemma ToggleMemoryTwice(s: State, json: Value)
    requires !Nullish(json) && Name(json) in s.memory && s.memory[Name(json)].value.Bool?
    ensures ToggleMemoryEdit(ToggleMemoryEdit(s, json).after, json).after.memory == s.memory
  {
    var n := Name(json);
    var once := ToggleMemoryEdit(s, json).after;
    assert once.memory[n].value == Bool(!s.memory[n].value.b);
    assert ToggleMemoryEdit(once, json).after.memory[n] == s.memory[n];
  }

  /**
   * `mergeMemory` into an object item overwrites exactly the keys of `json.values`, keeps
   * the item's other keys and its owner, mode and origin, and merging again changes nothing.
   */
  lemma MergeMemoryOverwrites(s: State, json: Value)
    requires !Nullish(json) && Name(json) in s.memory && s.memory[Name(json)].value.Obj?
    requires Get(json, "values").Obj? && Get(json, "values").fields != map[]
    ensures var r := MergeMemoryEdit(s, json);
      var before := s.memory[Name(json)];
      var values := Get(json, "values").fields;
      var after := r.after.memory[Name(json)];
      && r.outcome == Returned
      && after.value.Obj?
      && after.value.fields.Keys == before.value.fields.Keys + values.Keys
      && (forall k :: k in values ==> after.value.fields[k] == values[k])
      && (forall k :: k in before.value.fields && k !in values ==> after.value.fields[k] == before.value.fields[k])
      && after.(value := before.value) == before
      && MergeMemoryEdit(r.after, json).after == r.after
  {
    var r := MergeMemoryEdit(s, json);
    var item := r.after.memory[Name(json)];
    var values := Get(json, "values");
    assert Assign(item.value, values) == item.value;
  }

  /** `mergeMemory` into a missing item or a primitive value throws and changes nothing. */
  lemma MergeMemoryThrows(s: State, json: Value)
    requires !Nullish(json) && Get(json, "values").Obj? && Get(json, "values").fields != map[]
    requires Name(json) !in s.memory || IsPrimitive(s.memory[Name(json)].value)
    ensures MergeMemoryEdit(s, json).outcome.Threw?
    ensures MergeMemoryEdit(s, json).after == s
  {
  }

  /**
   * `ifqueue` treats a statement that throws as false: it runs the `else` queue, if any, and
   * throws only when that `execute` throws.
   */
  lemma IfQueueThrowIsFalse(s: State, json: Value, ev: Evaluator)
    requires !Nullish(json) && Get(json, "statement").Str?
    requires ev(Get(json, "statement").s, s.memory).None?
    ensures IfQueueEdit(s, json, ev).after ==
      if Truthy(Get(json, "else")) then Engine.Execute(s, ToKey(Get(json, "else")), JsonArg(json), false, ev) else s
    ensures IfQueueEdit(s, json, ev).outcome.Threw? <==>
      Truthy(Get(json, "else")) && ExecuteThrows(s, ToKey(Get(json, "else")), JsonArg(json), ev)
  {
  }

  /**
   * No command body touches a RUNNING entry or breaks the engine's invariant: the passes
   * inside `execute`, `ifqueue` and the register commands only start ADDED entries.
   */
  lemma EditKeepsRunning(s: State, c: Cmd, json: Value, ev: Evaluator, pid: nat)
    requires Wf(s) && pid in s.table && s.table[pid].state == Running
    ensures var r := Edit(s, c, json, ev).after;
      pid in r.table && r.table[pid] == s.table[pid] && Wf(r)
  {
    match c
    case ExecuteCmd => ExecuteEditKeepsRunning(s, json, ev, pid);
    case IfQueueCmd => IfQueueKeepsRunning(s, json, ev, pid);
    case SetRegisterCmd => RegisterEditKeepsRunning(s, json, ev, pid);
    case DeleteRegisterCmd => RegisterEditKeepsRunning(s, json, ev, pid);
    case EvalCmd => EvalEditWf(s, json, ev);
    case SetMemoryCmd => SetMemoryEditWf(s, json);
    case ToggleMemoryCmd => ToggleMemoryEditWf(s, json);
    case MergeMemoryCmd => MergeMemoryEditWf(s, json);
    case PushMemoryCmd => PushMemoryEditWf(s, json);
    case DeleteMemoryCmd => DeleteMemoryEditWf(s, json);
    case _ =>
  }

  /** `execute` leaves a RUNNING entry and the invariant alone. */
  lemma ExecuteEditKeepsRunning(s: State, json: Value, ev: Evaluator, pid: nat)
    requires Wf(s) && pid in s.table && s.table[pid].state == Running
    ensures var r := ExecuteEdit(s, json, ev).after;
      pid in r.table && r.table[pid] == s.table[pid] && Wf(r)
  {
    if !Nullish(json) && !ExecuteThrows(s, Name(json), JsonArg(json), ev) {
      ExecuteKeepsRunning(s, Name(json), JsonArg(json), Get(json, "silentFail") == Bool(true), ev, pid);
    }
  }

  /** `ifqueue` leaves a RUNNING entry and the invariant alone. */
  lemma IfQueueKeepsRunning(s: State, json: Value, ev: Evaluator, pid: nat)
    requires Wf(s) && pid in s.table && s.table[pid].state == Running
    ensures var r := IfQueueEdit(s, json, ev).after;
      pid in r.table && r.table[pid] == s.table[pid] && Wf(r)
  {
    if !Nullish(json) {
      var result := Evaluate(Get(json, "statement"), s.memory, ev);
      if result.Some? && Truthy(result.value) {
        ExecuteKeepsRunning(s, Name(json), JsonArg(json), false, ev, pid);
      } else if Truthy(Get(json, "else")) {
        ExecuteKeepsRunning(s, ToKey(Get(json, "else")), JsonArg(json), false, ev, pid);
      }
    }
  }

  /** The register commands leave a RUNNING entry and the invariant alone. */
  lemma RegisterEditKeepsRunning(s: State, json: Value, ev: Evaluator, pid: nat)
    requires Wf(s) && pid in s.table && s.table[pid].state == Running
    ensures var r := SetRegisterEdit(s, json, ev).after;
      pid in r.table && r.table[pid] == s.table[pid] && Wf(r)
    ensures var r := DeleteRegisterEdit(s, json, ev).after;
      pid in r.table && r.table[pid] == s.table[pid] && Wf(r)
  {
    if !Nullish(json) {
      RegisterProps.RegistersWf(s, Name(json), ev);
      DispatchProps.ProcessEligibility(s.(registers := AddRegister(s.registers, Name(json))), ev, pid);
      DispatchProps.ProcessEligibility(s.(registers := RemoveRegister(s.registers, Name(json))), ev, pid);
    }
  }

  /** A state that differs from a sound one only in its memory keeps the invariant when its names stay consistent. */
  lemma MemoryOnlyWf(s: State, r: State)
    requires Wf(s) && NamesOk(r.names, r.memory.Keys) && MemoryOnly(s, r)
    ensures Wf(r)
  {
  }

  /** `eval` keeps the invariant. */
  lemma EvalEditWf(s: State, json: Value, ev: Evaluator)
    requires Wf(s)
    ensures Wf(EvalEdit(s, json, ev).after)
  {
    if !Nullish(json) && (json.Obj? || json.Arr?) {
      var result := Evaluate(Get(json, "statement"), s.memory, ev);
      MemoryProps.SetMemoryStores(s, EvalName(json), if result.Some? then result.value else Undefined, Some(Session));
      MemoryOnlyWf(s, EvalEdit(s, json, ev).after);
    }
  }

  /** `setMemory` keeps the invariant. */
  lemma SetMemoryEditWf(s: State, json: Value)
    requires Wf(s)
    ensures Wf(SetMemoryEdit(s, json).after)
  {
    if !Nullish(json) {
      MemoryProps.SetMemoryStores(s, Name(json), Get(json, "value"), ModeArg(Get(json, "mode")));
      MemoryOnlyWf(s, SetMemoryEdit(s, json).after);
    }
  }

  /** `toggleMemory` keeps the invariant. */
  lemma ToggleMemoryEditWf(s: State, json: Value)
    requires Wf(s)
    ensures Wf(ToggleMemoryEdit(s, json).after)
  {
    MemoryOnlyWf(s, ToggleMemoryEdit(s, json).after);
  }

  /** `mergeMemory` keeps the invariant. */
  lemma MergeMemoryEditWf(s: State, json: Value)
    requires Wf(s)
    ensures Wf(MergeMemoryEdit(s, json).after)
  {
    MemoryOnlyWf(s, MergeMemoryEdit(s, json).after);
  }

  /** `pushMemory` keeps the invariant. */
  lemma PushMemoryEditWf(s: State, json: Value)
    requires Wf(s)
    ensures Wf(PushMemoryEdit(s, json).after)
  {
    if !Nullish(json) && !(Name(json) in s.memory && !s.memory[Name(json)].value.Arr?) {
      PushMemoryStores(s, json);
      MemoryOnlyWf(s, PushMemoryEdit(s, json).after);
    }
  }

  /** `deleteMemory` keeps the invariant. */
  lemma DeleteMemoryEditWf(s: State, json: Value)
    requires Wf(s)
    ensures Wf(DeleteMemoryEdit(s, json).after)
  {
    if !Nullish(json) {
      MemoryProps.DeleteMemoryUnindexes(s, Name(json));
      MemoryOnlyWf(s, DeleteMemoryEdit(s, json).after);
    }
  }

  /**
   * A command body that returns on a RUNNING entry is followed by exactly one finish of that
   * entry: at the end of its chain the entry leaves the table, otherwise the chain advances
   * by one link. The engine's invariant is kept.
   */
  lemma OpFinishesEntry(s: State, pid: nat, c: Cmd, json: Value, ev: Evaluator)
    requires Wf(s) && pid in s.table && s.table[pid].state == Running
    requires Edit(s, c, json, ev).outcome == Returned
    ensures var r := Op(s, pid, c, json, ev);
      && r.outcome == Returned
      && r.after == Finish(Edit(s, c, json, ev).after, pid, FinOk, "", ev)
      && (|s.table[pid].cmd.commands| == 0 ==> pid !in r.after.table)
      && (|s.table[pid].cmd.commands| > 0 ==>
            pid in r.after.table && r.after.table[pid].cmd.commands == s.table[pid].cmd.commands[1..])
      && Wf(r.after)
  {
    var e := Edit(s, c, json, ev).after;
    EditKeepsRunning(s, c, json, ev, pid);
    FinishProps.FinishWf(e, pid, FinOk, "", ev);
    if |s.table[pid].cmd.commands| == 0 {
      FinishProps.FinishDone(e, pid, FinOk, "", ev);
    } else {
      FinishProps.FinishAdvance(e, pid, FinOk, "", ev);
    }
  }

  /**
   * `start` on a RUNNING entry with a name this queueable does not have keeps the engine's
   * invariant. An unknown name leaves the entry in ERROR; a throwing inherited method does
   * too, unless `generalError`'s own statement throws and the entry stays RUNNING; a quiet
   * inherited method changes nothing, so the entry stalls.
   */
  lemma HandleUnknown(s: State, pid: nat, command: string, json: Value, ev: Evaluator)
    requires Wf(s) && pid in s.table && s.table[pid].state == Running
    requires CommandOf(command).None?
    ensures var r := Handle(s, pid, command, json, ev);
      && Wf(r)
      && (command in QuietInherited ==> r == s)
      && (command !in QuietInherited && command !in ThrowingInherited ==>
            pid in r.table && r.table[pid].state == Error)
      && (command in ThrowingInherited ==>
            pid in r.table && (r.table[pid].state == Error <==> !ContainThrows(s, InheritedError(command), ev)))
  {
    assert Handle(s, pid, command, json, ev) == StartStep(s, Commands, pid, command, Returned, ev);
    StartUnknown(s, Commands, pid, command, Returned, ev);
  }

  /**
   * `start` on a RUNNING entry with one of this queueable's commands keeps the engine's
   * invariant. A body that throws (`run` always does) leaves the entry in ERROR, unless
   * `generalError`'s own statement throws as well and the entry stays RUNNING; a body that
   * returns moves the chain on by one link or ends it.
   */
  lemma HandleOutcome(s: State, pid: nat, command: string, json: Value, ev: Evaluator)
    requires Wf(s) && pid in s.table && s.table[pid].state == Running
    requires CommandOf(command).Some?
    ensures var r := Handle(s, pid, command, json, ev);
      var e := Edit(s, CommandOf(command).value, json, ev);
      && Wf(r)
      && (command == "run" || e.outcome.Threw? ==>
            pid in r.table && r.table[pid].state in {Error, Running})
      && (e.outcome.Threw? ==>
            (r.table[pid].state == Error <==> !ContainThrows(s, e.outcome.message, ev)))
      && (e.outcome == Returned ==>
            (pid in r.table ==> |s.table[pid].cmd.commands| > 0 && r.table[pid].cmd.commands == s.table[pid].cmd.commands[1..]))
  {
    var c := CommandOf(command);
    var e := Edit(s, c.value, json, ev);
    if e.outcome.Threw? {
      ContainedEndsInError(s, pid, command, e.outcome.message, ev);
    } else {
      OpFinishesEntry(s, pid, c.value, json, ev);
    }
  }

  // ---------------------------------------------------------------------------------------
  // The commands on the queueable object

  /** The queueable is attached to a valid engine and `pid` may be finished. */
  ghost predicate Attached(self: Queueable, pid: int)
    reads self, self.queue
  {
    self.queue != null && self.queue.Valid() && Finishable(self.queue.table, pid)
  }

  /** `execute(pid, json)`. */
  method Execute(self: Queueable, pid: int, json: Value) returns (outcome: Outcome)
    requires Attached(self, pid)
    modifies self.queue
    ensures self.queue.Valid()
    ensures Effect(outcome, self.queue.Abs()) == Finishing(pid, ExecuteEdit(old(self.queue.Abs()), json, self.queue.evaluate), self.queue.evaluate)
  {
    if Nullish(json) {
      return Threw(NoProperties(json));
    }
    outcome := Call(self, pid, Name(json), JsonArg(json), Get(json, "silentFail") == Bool(true));
  }

  /**
   * A command body that ends with `this.queue.execute(name, json, silent)`: a throw leaves the
   * entry as it is, a return finishes it.
   */
  method Call(self: Queueable, pid: int, name: string, json: Option<Value>, silent: bool) returns (outcome: Outcome)
    requires Attached(self, pid)
    modifies self.queue
    ensures self.queue.Valid()
    ensures Effect(outcome, self.queue.Abs()) == Finishing(pid, Executed(old(self.queue.Abs()), name, json, silent, self.queue.evaluate), self.queue.evaluate)
  {
    ghost var s0 := self.queue.Abs();
    var _, thrown, _ := self.queue.Execute(name, json, silent);
    if thrown.Some? {
      return Threw(thrown.value);
    }
    assert self.queue.Abs() == Executed(s0, name, json, silent, self.queue.evaluate).after;
    self.Finished(pid, FinOk, "");
    outcome := Returned;
  }

  /** `run(pid, json)`: calling the arguments throws before anything changes. */
  method Run(self: Queueable, pid: int, json: Value) returns (outcome: Outcome)
    requires Attached(self, pid)
    ensures Effect(outcome, self.queue.Abs()) == Finishing(pid, RunEdit(self.queue.Abs(), json), self.queue.evaluate)
  {
    outcome := Threw("TypeError: json is not a function");
  }

  /** `eval(pid, json)`. */
  method Eval(self: Queueable, pid: int, json: Value) returns (outcome: Outcome)
    requires Attached(self, pid)
    modifies self.queue
    ensures self.queue.Valid()
    ensures Effect(outcome, self.queue.Abs()) == Finishing(pid, EvalEdit(old(self.queue.Abs()), json, self.queue.evaluate), self.queue.evaluate)
  {
    if Nullish(json) {
      return Threw(NoProperties(json));
    }
    if !json.Obj? && !json.Arr? {
      return Threw(CannotCreate("name", json));
    }
    var name := EvalName(json);
    var result := Evaluate(Get(json, "statement"), self.queue.memory, self.queue.evaluate);
    var value := if result.Some? then result.value else Undefined;
    var _ := self.queue.SetMemory(name, value, Some(Session));
    self.Finished(pid, FinOk, "");
    outcome := Returned;
  }

  /** `ifqueue(pid, json)`. */
  method IfQueue(self: Queueable, pid: int, json: Value) returns (outcome: Outcome)
    requires Attached(self, pid)
    modifies self.queue
    ensures self.queue.Valid()
    ensures Effect(outcome, self.queue.Abs()) == Finishing(pid, IfQueueEdit(old(self.queue.Abs()), json, self.queue.evaluate), self.queue.evaluate)
  {
    if Nullish(json) {
      return Threw(NoProperties(json));
    }
    var result := Evaluate(Get(json, "statement"), self.queue.memory, self.queue.evaluate);
    if result.Some? && Truthy(result.value) {
      outcome := Call(self, pid, Name(json), JsonArg(json), false);
    } else if Truthy(Get(json, "else")) {
      outcome := Call(self, pid, ToKey(Get(json, "else")), JsonArg(json), false);
    } else {
      self.Finished(pid, FinOk, "");
      outcome := Returned;
    }
  }

  /** `setMemory(pid, json)`. */
  method SetMemory(self: Queueable, pid: int, json: Value) returns (outcome: Outcome)
    requires Attached(self, pid)
    modifies self.queue
    ensures self.queue.Valid()
    ensures Effect(outcome, self.queue.Abs()) == Finishing(pid, SetMemoryEdit(old(self.queue.Abs()), json), self.queue.evaluate)
  {
    if Nullish(json) {
      return Threw(NoProperties(json));
    }
    var _ := self.queue.SetMemory(Name(json), Get(json, "value"), ModeArg(Get(json, "mode")));
    self.Finished(pid, FinOk, "");
    outcome := Returned;
  }

  /** `toggleMemory(pid, json)`: the item is replaced by one holding the negated value. */
  method ToggleMemory(self: Queueable, pid: int, json: Value) returns (outcome: Outcome)
    requires Attached(self, pid)
    modifies self.queue
    ensures self.queue.Valid()
    ensures Effect(outcome, self.queue.Abs()) == Finishing(pid, ToggleMemoryEdit(old(self.queue.Abs()), json), self.queue.evaluate)
  {
    if Nullish(json) {
      return Threw(NoProperties(json));
    }
    var name := Name(json);
    if name !in self.queue.memory {
      if name in ObjectProperties {
        self.Finished(pid, FinOk, "");
        return Returned;
      }
      return Threw(NoProperties(Undefined));
    }
    var item := self.queue.memory[name];
    self.queue.Put(name, item.(value := Bool(!Truthy(item.value))));
    self.Finished(pid, FinOk, "");
    outcome := Returned;
  }

  /** `mergeMemory(pid, json)`: the item is replaced by one holding the merged object. */
  method MergeMemory(self: Queueable, pid: int, json: Value) returns (outcome: Outcome)
    requires Attached(self, pid)
    modifies self.queue
    ensures self.queue.Valid()
    ensures Effect(outcome, self.queue.Abs()) == Finishing(pid, MergeMemoryEdit(old(self.queue.Abs()), json), self.queue.evaluate)
  {
    if Nullish(json) {
      return Threw(NoProperties(json));
    }
    var values := Get(json, "values");
    var name := Name(json);
    if values.Obj? && values.fields != map[] {
      if name !in self.queue.memory {
        return Threw(NoProperties(Undefined));
      }
      var item := self.queue.memory[name];
      if item.value.Obj? {
        self.queue.Put(name, item.(value := Assign(item.value, values)));
      } else if !item.value.Arr? {
        return Threw(CannotCreate("values", item.value));
      }
    }
    self.Finished(pid, FinOk, "");
    outcome := Returned;
  }

  /** `pushMemory(pid, json)`. */
  method PushMemory(self: Queueable, pid: int, json: Value) returns (outcome: Outcome)
    requires Attached(self, pid)
    modifies self.queue
    ensures self.queue.Valid()
    ensures Effect(outcome, self.queue.Abs()) == Finishing(pid, PushMemoryEdit(old(self.queue.Abs()), json), self.queue.evaluate)
  {
    if Nullish(json) {
      return Threw(NoProperties(json));
    }
    ghost var s0 := self.queue.Abs();
    var name := Name(json);
    var items: seq<Value> := [];
    if name !in self.queue.memory && name in ObjectProperties {
      return Threw(NoProperties(Undefined));
    }
    if name in self.queue.memory {
      var current := self.queue.memory[name].value;
      if !current.Arr? {
        return Threw("TypeError: modArray.push is not a function");
      }
      items := current.items;
    }
    assert items == PushBase(s0, name);
    items := Pushed(items, Get(json, "value"), Get(json, "toggle") == Bool(true));
    var _ := self.queue.SetMemory(name, Arr(items), ModeArg(Get(json, "mode")));
    assert self.queue.Abs() == PushMemoryEdit(s0, json).after;
    self.Finished(pid, FinOk, "");
    outcome := Returned;
  }

  /** `setRegister(pid, json)`. */
  method SetRegister(self: Queueable, pid: int, json: Value) returns (outcome: Outcome)
    requires Attached(self, pid)
    modifies self.queue
    ensures self.queue.Valid()
    ensures Effect(outcome, self.queue.Abs()) == Finishing(pid, SetRegisterEdit(old(self.queue.Abs()), json, self.queue.evaluate), self.queue.evaluate)
  {
    if Nullish(json) {
      return Threw(NoProperties(json));
    }
    var _ := self.queue.SetRegister(Name(json));
    self.Finished(pid, FinOk, "");
    outcome := Returned;
  }

  /** `deleteRegister(pid, json)`. */
  method DeleteRegister(self: Queueable, pid: int, json: Value) returns (outcome: Outcome)
    requires Attached(self, pid)
    modifies self.queue
    ensures self.queue.Valid()
    ensures Effect(outcome, self.queue.Abs()) == Finishing(pid, DeleteRegisterEdit(old(self.queue.Abs()), json, self.queue.evaluate), self.queue.evaluate)
  {
    if Nullish(json) {
      return Threw(NoProperties(json));
    }
    var _ := self.queue.DeleteRegister(Name(json));
    self.Finished(pid, FinOk, "");
    outcome := Returned;
  }

  /** `deleteMemory(pid, json)`. */
  method DeleteMemory(self: Queueable, pid: int, json: Value) returns (outcome: Outcome)
    requires Attached(self, pid)
    modifies self.queue
    ensures self.queue.Valid()
    ensures Effect(outcome, self.queue.Abs()) == Finishing(pid, DeleteMemoryEdit(old(self.queue.Abs()), json), self.queue.evaluate)
  {
    if Nullish(json) {
      return Threw(NoProperties(json));
    }
    var _ := self.queue.DeleteMemory(Name(json));
    self.Finished(pid, FinOk, "");
    outcome := Returned;
  }

  /** `nop`, `debug` and `console`: finish at once (`console` first reads `json.log`). */
  method Idle(self: Queueable, pid: int, c: Cmd, json: Value) returns (outcome: Outcome)
    requires Attached(self, pid) && (c.NopCmd? || c.DebugCmd? || c.ConsoleCmd?)
    modifies self.queue
    ensures self.queue.Valid()
    ensures Effect(outcome, self.queue.Abs()) == Op(old(self.queue.Abs()), pid, c, json, self.queue.evaluate)
  {
    ghost var s0 := self.queue.Abs();
    if c.ConsoleCmd? && Nullish(json) {
      return Threw(NoProperties(json));
    }
    assert Edit(s0, c, json, self.queue.evaluate) == Effect(Returned, s0);
    self.Finished(pid, FinOk, "");
    outcome := Returned;
  }

  /** `self[command](pid, json)` for a command this queueable has. */
  method Dispatch(self: Queueable, pid: int, c: Cmd, json: Value) returns (outcome: Outcome)
    requires Attached(self, pid)
    modifies self.queue
    ensures self.queue.Valid()
    ensures Effect(outcome, self.queue.Abs()) == Op(old(self.queue.Abs()), pid, c, json, self.queue.evaluate)
  {
    match c
    case ExecuteCmd => outcome := Execute(self, pid, json);
    case RunCmd => outcome := Run(self, pid, json);
    case EvalCmd => outcome := Eval(self, pid, json);
    case IfQueueCmd => outcome := IfQueue(self, pid, json);
    case SetMemoryCmd => outcome := SetMemory(self, pid, json);
    case ToggleMemoryCmd => outcome := ToggleMemory(self, pid, json);
    case MergeMemoryCmd => outcome := MergeMemory(self, pid, json);
    case PushMemoryCmd => outcome := PushMemory(self, pid, json);
    case SetRegisterCmd => outcome := SetRegister(self, pid, json);
    case DeleteRegisterCmd => outcome := DeleteRegister(self, pid, json);
    case DeleteMemoryCmd => outcome := DeleteMemory(self, pid, json);
    case _ => outcome := Idle(self, pid, c, json);
  }

  /** `start(pid, command, json)` on this queueable: run the command, reject or contain as the base class does. */
  method Start(self: Queueable, pid: nat, command: string, json: Value)
    requires Attached(self, pid) && self.commands == Commands
    modifies self.queue
    ensures self.queue.Valid()
    ensures self.queue.Abs() == Handle(old(self.queue.Abs()), pid, command, json, self.queue.evaluate)
  {
    var body := Returned;
    var c := CommandOf(command);
    if c.Some? {
      body := Dispatch(self, pid, c.value, json);
    }
    self.Start(pid, command, body);
  }
}
