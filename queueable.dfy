/**
 * The base class every queueable extends (Queueable.js): its readiness flag, its link to the
 * queue engine, and the `start` wrapper that runs a command, rejects an unknown one and
 * contains a command that throws. The engine-level effect of each path is a pure function
 * on the engine state; the class is proved to follow it.
 */
module Queueable {
  import opened Define
  import opened Values
  import opened Engine
  import Queue
  import SubmitProps
  import DispatchProps
  import FinishProps
  import MemoryProps

  /** How a command body ended: it returned, or it threw an exception with this message. */
  datatype Outcome = Returned | Threw(message: string)

  /** A pid a queueable may pass to `finished`: the sentinel -1 or a key of the live table. */
  predicate Finishable(t: map<nat, Entry>, pid: int) {
    pid == -1 || (0 <= pid && pid in t)
  }

  /** The error text of a command the queueable does not have. */
  function NoSuchCommand(command: string): string {
    "No such command [" + command + "]"
  }

  /** The error text of a command that threw. */
  function ErroredMessage(command: string, message: string): string {
    "Queue [" + command + "] errored: " + message
  }

  /** `finished(pid, mode, error)` of a queueable: -1 marks a direct run outside the queue. */
  function Done(s: State, pid: int, mode: FinMode, error: string, ev: Evaluator): State
    requires Finishable(s.table, pid)
  {
    if pid == -1 then s else Finish(s, pid, mode, error, ev)
  }

  /** The `start` path for a command the queueable does not have. */
  function Rejected(s: State, pid: nat, command: string, ev: Evaluator): State
    requires pid in s.table
  {
    Finish(s, pid, FinError, NoSuchCommand(command), ev)
  }

  /**
   * The `start` path for a command that threw: the message goes to memory as the Session item
   * `generalErrorMessage`, the prepared queue `generalError` is executed (reported when it is
   * missing) and the entry is finished with FIN_ERROR. When `generalError`'s own statement
   * throws, that throw leaves `start` from inside its catch block and the entry is never
   * finished.
   */
  function Contained(s: State, pid: nat, command: string, message: string, ev: Evaluator): State
    requires pid in s.table
  {
    var s1 := SetMemory(s, "generalErrorMessage", Str(message), Some(Session));
    if ContainThrows(s, message, ev) then s1
    else
      var s2 := Execute(s1, "generalError", None, false, ev);
      SubmitProps.ExecuteKeepsKeys(s1, "generalError", None, false, ev);
      Finish(s2, pid, FinError, ErroredMessage(command, message), ev)
  }

  /** Whether the catch branch of `start` throws again: `generalError`'s statement throws. */
  predicate ContainThrows(s: State, message: string, ev: Evaluator) {
    ExecuteThrows(SetMemory(s, "generalErrorMessage", Str(message), Some(Session)), "generalError", None, ev)
  }

  /**
   * Methods every object inherits from `Object.prototype` that pass the function test of
   * `start` and return without throwing; as they never call `finished`, the entry stays RUNNING.
   */
  const QuietInherited: set<string> := {"toString", "toLocaleString", "valueOf", "hasOwnProperty",
    "isPrototypeOf", "propertyIsEnumerable", "__lookupGetter__", "__lookupSetter__"}

  /**
   * Inherited methods that throw when `start` calls them: the class constructor cannot be
   * called without `new`, and the getter and setter definers demand a function argument.
   */
  const ThrowingInherited: set<string> := {"constructor", "__defineGetter__", "__defineSetter__"}

  /** No inherited method is both quiet and throwing. */
  lemma InheritedDisjoint()
    ensures QuietInherited !! ThrowingInherited
  {
  }

  /** The error text of a throwing inherited method. */
  function InheritedError(command: string): string {
    if command == "constructor" then "TypeError: Class constructor cannot be invoked without 'new'"
    else "TypeError: Object.prototype." + command + ": Expecting function"
  }

  /**
   * `start(pid, command, json)` seen from the engine, once the command body (if it ran) has
   * ended with `body` in state `s`. A name the queueable does not have may still be an
   * inherited method: a quiet one leaves the entry RUNNING, a throwing one is contained.
   */
  function StartStep(s: State, commands: set<string>, pid: nat, command: string, body: Outcome, ev: Evaluator): State
    requires command !in commands || body.Threw? ==> pid in s.table
  {
    if command in commands then
      (if body.Threw? then Contained(s, pid, command, body.message, ev) else s)
    else if command in QuietInherited then s
    else if command in ThrowingInherited then Contained(s, pid, command, InheritedError(command), ev)
    else Rejected(s, pid, command, ev)
  }

  /**
   * `start` on a RUNNING entry with a name the queueable does not have keeps the engine's
   * invariant: an unknown name ends the entry in ERROR, a throwing inherited method is
   * contained, and a quiet inherited method changes nothing.
   */
  lemma StartUnknown(s: State, commands: set<string>, pid: nat, command: string, body: Outcome, ev: Evaluator)
    requires Wf(s) && pid in s.table && s.table[pid].state == Running
    requires command !in commands
    ensures var r := StartStep(s, commands, pid, command, body, ev);
      && Wf(r)
      && (command in QuietInherited ==> r == s)
      && (command !in QuietInherited && command !in ThrowingInherited ==>
            pid in r.table && r.table[pid].state == Error)
      && (command in ThrowingInherited ==>
            pid in r.table && (r.table[pid].state == Error <==> !ContainThrows(s, InheritedError(command), ev)))
  {
    var r := StartStep(s, commands, pid, command, body, ev);
    if command in ThrowingInherited {
      assert r == Contained(s, pid, command, InheritedError(command), ev);
      ContainedEndsInError(s, pid, command, InheritedError(command), ev);
      InheritedDisjoint();
    } else if command !in QuietInherited {
      assert r == Rejected(s, pid, command, ev);
      RejectedEndsInError(s, pid, command, ev);
      FinishProps.FinishWf(s, pid, FinError, NoSuchCommand(command), ev);
    }
  }

  /**
   * Rejecting a RUNNING entry halts its chain: it stays in the table in ERROR with the
   * "No such command" text, the error is reported last, and nothing else changes.
   */
  lemma RejectedEndsInError(s: State, pid: nat, command: string, ev: Evaluator)
    requires pid in s.table && s.table[pid].state == Running
    ensures var r := Rejected(s, pid, command, ev);
      && r.table.Keys == s.table.Keys
      && r.table[pid].state == Error
      && r.table[pid].error == Some(NoSuchCommand(command))
      && (forall k :: k in s.table && k != pid ==> r.table[k] == s.table[k])
      && r.memory == s.memory && r.store == s.store
      && r.reports == s.reports + [Errored(pid, NoSuchCommand(command))]
  {
    FinishProps.FinishError(s, pid, NoSuchCommand(command), ev);
  }

  /**
   * Containing a throw of a RUNNING entry halts its chain: the entry ends in ERROR with the
   * "Queue [command] errored" text and its command intact, memory holds the message as a
   * Session user item, the error is reported last (after the missing-`generalError` report
   * when that queue is not prepared), and the engine's invariant is kept.
   */
  lemma ContainedEndsInError(s: State, pid: nat, command: string, message: string, ev: Evaluator)
    requires Wf(s) && pid in s.table && s.table[pid].state == Running
    ensures var r := Contained(s, pid, command, message, ev);
      && "generalErrorMessage" in r.memory
      && r.memory["generalErrorMessage"] == Memory.Snapshot(-1, Session, "User", Str(message))
      && Wf(r)
      && (ContainThrows(s, message, ev) ==> r.table == s.table && r.reports == s.reports)
    ensures var r := Contained(s, pid, command, message, ev);
      !ContainThrows(s, message, ev) ==>
      && pid in r.table
      && r.table[pid].state == Error
      && r.table[pid].error == Some(ErroredMessage(command, message))
      && r.table[pid].cmd == s.table[pid].cmd
      && "generalErrorMessage" in r.memory
      && r.memory["generalErrorMessage"] == Memory.Snapshot(-1, Session, "User", Str(message))
      && |r.reports| > 0 && r.reports[|r.reports| - 1] == Errored(pid, ErroredMessage(command, message))
      && ("generalError" !in s.prepare ==>
            r.reports == s.reports + [NoPrepare("generalError"), Errored(pid, ErroredMessage(command, message))])
      && Wf(r)
  {
    var s1 := SetMemory(s, "generalErrorMessage", Str(message), Some(Session));
    MemoryProps.SetMemoryStores(s, "generalErrorMessage", Str(message), Some(Session));
    assert Wf(s1);
    if !ExecuteThrows(s1, "generalError", None, ev) {
      var s2 := Execute(s1, "generalError", None, false, ev);
      ExecuteKeepsRunning(s1, "generalError", None, false, ev, pid);
      FinishProps.FinishError(s2, pid, ErroredMessage(command, message), ev);
      FinishProps.FinishWf(s2, pid, FinError, ErroredMessage(command, message), ev);
    }
  }

  /**
   * `execute` leaves a RUNNING entry, the memory store and the invariant alone: its pass
   * only starts ADDED entries and its submission only adds fresh keys.
   */
  lemma ExecuteKeepsRunning(s: State, name: string, json: Option<Value>, silent: bool, ev: Evaluator, pid: nat)
    requires Wf(s) && pid in s.table && s.table[pid].state == Running
    ensures var r := Execute(s, name, json, silent, ev);
      && pid in r.table && r.table[pid] == s.table[pid]
      && r.memory == s.memory && r.names == s.names && r.store == s.store
      && Wf(r)
  {
    if Runs(s, name, ev) && !ExecuteThrows(s, name, json, ev) {
      var s1 := SubmitAll(s, [Clone(s.prepare[name], json)]);
      SubmitProps.ExecuteRuns(s, name, json, silent, ev);
      SubmitProps.SubmitAllWf(s, [Clone(s.prepare[name], json)]);
      DispatchProps.ProcessEligibility(s1, ev, pid);
      DispatchProps.ProcessWf(s1, ev);
    }
  }

  class Queueable {
    /** Whether the queue may dispatch to this queueable. */
    var ready: bool
    /** The engine this queueable reports to, set by `init`. */
    var queue: Queue.Queue?
    /** The names of the commands this queueable has. */
    const commands: set<string>

    /** A new queueable is not ready and not attached. */
    constructor(commands: set<string>)
      ensures !ready && queue == null && this.commands == commands
    {
      this.commands := commands;
      ready := false;
      queue := null;
    }

    /** `init(queue)`: attach to the engine and become ready. */
    method Init(q: Queue.Queue)
      modifies this
      ensures queue == q && ready
    {
      queue := q;
      ready := true;
    }

    /** `finished(pid, mode, error)`: forward to the engine unless `pid` is the sentinel -1. */
    method Finished(pid: int, mode: FinMode, error: string)
      requires queue != null && queue.Valid() && Finishable(queue.table, pid)
      modifies queue
      ensures queue.Valid()
      ensures queue.Abs() == Done(old(queue.Abs()), pid, mode, error, queue.evaluate)
    {
      if pid != -1 {
        var _ := queue.Finished(pid, mode, error);
      }
    }

    /** `set(pid, value)`: store `value` as the memory of the entry with that pid. */
    method Set(pid: int, value: Value)
      requires queue != null && queue.Valid()
      modifies queue
      ensures queue.Valid()
      ensures queue.Abs() == WriteMemory(old(queue.Abs()), pid, value)
    {
      var _ := queue.WriteMemory(pid, value);
    }

    /** The unknown-command branch of `start`. */
    method Reject(pid: nat, command: string)
      requires queue != null && queue.Valid() && pid in queue.table
      modifies queue
      ensures queue.Valid()
      ensures queue.Abs() == Rejected(old(queue.Abs()), pid, command, queue.evaluate)
    {
      var _ := queue.Finished(pid, FinError, NoSuchCommand(command));
    }

    /** The catch branch of `start`. */
    method Contain(pid: nat, command: string, message: string)
      requires queue != null && queue.Valid() && pid in queue.table
      modifies queue
      ensures queue.Valid()
      ensures queue.Abs() == Contained(old(queue.Abs()), pid, command, message, queue.evaluate)
    {
      var _ := queue.SetMemory("generalErrorMessage", Str(message), Some(Session));
      ghost var s1 := queue.Abs();
      var _, thrown, _ := queue.Execute("generalError", None, false);
      if thrown.Some? {
        return;
      }
      SubmitProps.ExecuteKeepsKeys(s1, "generalError", None, false, queue.evaluate);
      var _ := queue.Finished(pid, FinError, ErroredMessage(command, message));
    }

    /**
     * `start(pid, command, json)` once the command body, when the queueable has the command,
     * has ended with `body`: an unknown command is rejected and a throw is contained.
     */
    method Start(pid: nat, command: string, body: Outcome)
      requires queue != null && queue.Valid()
      requires command !in commands || body.Threw? ==> pid in queue.table
      modifies queue
      ensures queue.Valid()
      ensures queue.Abs() == StartStep(old(queue.Abs()), commands, pid, command, body, queue.evaluate)
    {
      ghost var s0 := queue.Abs();
      if command !in commands {
        StartMissing(pid, command, body);
      } else if body.Threw? {
        assert StartStep(s0, commands, pid, command, body, queue.evaluate)
          == Contained(s0, pid, command, body.message, queue.evaluate);
        Contain(pid, command, body.message);
      }
    }

    /** `start` with a name the queueable does not have: an inherited method or a rejection. */
    method StartMissing(pid: nat, command: string, body: Outcome)
      requires queue != null && queue.Valid()
      requires command !in commands && pid in queue.table
      modifies queue
      ensures queue.Valid()
      ensures queue.Abs() == StartStep(old(queue.Abs()), commands, pid, command, body, queue.evaluate)
    {
      ghost var s0 := queue.Abs();
      if command in ThrowingInherited {
        InheritedDisjoint();
        assert command !in QuietInherited;
        assert StartStep(s0, commands, pid, command, body, queue.evaluate)
          == Contained(s0, pid, command, InheritedError(command), queue.evaluate);
        Contain(pid, command, InheritedError(command));
      } else if command !in QuietInherited {
        assert StartStep(s0, commands, pid, command, body, queue.evaluate)
          == Rejected(s0, pid, command, queue.evaluate);
        Reject(pid, command);
      }
    }
  }
}
