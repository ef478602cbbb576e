/** What `finished` promises in each of its four outcomes. */
module FinishProps {
  import opened Define
  import opened Values
  import opened Memory
  import opened Engine
  import DispatchProps

  /**
   * On an entry that is not RUNNING only the error text is overwritten: the state, every
   * other entry and the memory are untouched, and the stop is reported.
   */
  lemma FinishNotRunning(s: State, pid: nat, mode: FinMode, error: string, ev: Evaluator)
    requires pid in s.table && s.table[pid].state != Running
    ensures var r := Finish(s, pid, mode, error, ev);
      && r.table.Keys == s.table.Keys
      && r.table[pid].state == s.table[pid].state
      && r.table[pid] == s.table[pid].(error := Some(error))
      && (forall k :: k in s.table && k != pid ==> r.table[k] == s.table[k])
      && r.memory == s.memory && r.store == s.store
      && r.reports == s.reports + [NotRunning(pid)]
  {
  }

  /**
   * FIN_ERROR on a RUNNING entry puts its chain on hold: the entry stays in the table in
   * ERROR with the error text, every other entry and the memory are untouched, and the
   * error is reported.
   */
  lemma FinishError(s: State, pid: nat, error: string, ev: Evaluator)
    requires pid in s.table && s.table[pid].state == Running
    ensures var r := Finish(s, pid, FinError, error, ev);
      && r.table.Keys == s.table.Keys
      && r.table[pid].state == Error
      && r.table[pid].error == Some(error)
      && r.table[pid].cmd == s.table[pid].cmd
      && (forall k :: k in s.table && k != pid ==> r.table[k] == s.table[k])
      && r.memory == s.memory && r.names == s.names && r.store == s.store
      && r.reports == s.reports + [Errored(pid, error)]
  {
  }

  /**
   * FIN_OK or FIN_WARNING on a RUNNING entry with links left shifts the first link into the
   * entry: its queueable, command, json and options are copied in, the chain shrinks by one,
   * key and pid are kept and the entry is ADDED again (RUNNING if the pass that follows
   * dispatches it at once, which only sets its timer). Memory is untouched.
   */
  lemma FinishAdvance(s: State, pid: nat, mode: FinMode, error: string, ev: Evaluator)
    requires TableOk(s.table, s.counter)
    requires pid in s.table && s.table[pid].state == Running && mode != FinError
    requires |s.table[pid].cmd.commands| > 0
    ensures var r := Finish(s, pid, mode, error, ev);
      var link := s.table[pid].cmd.commands[0];
      && pid in r.table
      && r.table[pid].cmd.queueable == link.queueable
      && r.table[pid].cmd.command == link.command
      && r.table[pid].cmd.json == link.json
      && r.table[pid].cmd.options.(queueTimer := link.options.queueTimer) == link.options
      && r.table[pid].cmd.commands == s.table[pid].cmd.commands[1..]
      && |r.table[pid].cmd.commands| == |s.table[pid].cmd.commands| - 1
      && r.table[pid].pid == s.table[pid].pid == Some(pid)
      && (r.table[pid].state == Added || r.table[pid].state == Running)
      && r.memory == s.memory
  {
  }

  /**
   * FIN_OK or FIN_WARNING on a RUNNING entry at the end of its chain finishes it: the entry
   * leaves the table and every other entry stays, exactly the Garbage items owned by its pid
   * are dropped from memory, and the remaining names keep their order.
   */
  lemma FinishDone(s: State, pid: nat, mode: FinMode, error: string, ev: Evaluator)
    requires Wf(s)
    requires pid in s.table && s.table[pid].state == Running && mode != FinError
    requires |s.table[pid].cmd.commands| == 0
    ensures var r := Finish(s, pid, mode, error, ev);
      && r.table == (map k | k in s.table && k != pid :: s.table[k])
      && r.memory == (map n | n in s.memory && !(s.memory[n].pid == pid && s.memory[n].mode == Garbage) :: s.memory[n])
      && r.names == KeepNames(s.names, r.memory.Keys)
      && r.store == s.store && r.reports == s.reports
      && ActiveKeys(r.table) == ActiveKeys(s.table) - {pid}
  {
    var r := Finish(s, pid, mode, error, ev);
    assert r.table == map k | k in s.table && k != pid :: s.table[k];
  }

  /** Every outcome of `finished` keeps the engine's invariant. */
  lemma FinishWf(s: State, pid: nat, mode: FinMode, error: string, ev: Evaluator)
    requires Wf(s) && pid in s.table
    ensures Wf(Finish(s, pid, mode, error, ev))
  {
    var e := s.table[pid].(error := Some(error));
    if e.state == Running && mode != FinError {
      if |e.cmd.commands| > 0 {
        AdvanceWf(s, pid, e, ev);
      } else {
        DoneWf(s, pid, e);
      }
    }
  }

  /** Advancing a RUNNING entry's chain and running a pass keeps the invariant. */
  lemma AdvanceWf(s: State, pid: nat, e: Entry, ev: Evaluator)
    requires Wf(s) && pid in s.table && e == s.table[pid].(error := e.error)
    requires e.state == Running && |e.cmd.commands| > 0
    ensures Wf(Process(s.(table := s.table[pid := Advance(e)]), ev))
  {
    var s1 := s.(table := s.table[pid := Advance(e)]);
    assert TableOk(s1.table, s1.counter);
    DispatchProps.ProcessWf(s1, ev);
  }

  /** Finishing a RUNNING entry, collecting its Garbage and pruning keeps the invariant. */
  lemma DoneWf(s: State, pid: nat, e: Entry)
    requires Wf(s) && pid in s.table && e == s.table[pid].(error := e.error)
    requires e.state == Running
    ensures var s1 := s.(table := s.table[pid := e.(state := Finished)]);
      var s2 := if e.pid.Some? then Collect(s1, e.pid.value) else s1;
      Wf(s2.(table := Prune(s2.table)))
  {
    var s1 := s.(table := s.table[pid := e.(state := Finished)]);
    var s2 := if e.pid.Some? then Collect(s1, e.pid.value) else s1;
    if e.pid.Some? {
      CollectNamesOk(s1, e.pid.value);
    }
    PruneOk(s2.table, s2.counter);
  }

  /** Collecting a pid's Garbage keeps the names consistent with the memory store. */
  lemma CollectNamesOk(s: State, owner: int)
    requires NamesOk(s.names, s.memory.Keys)
    ensures NamesOk(Collect(s, owner).names, Collect(s, owner).memory.Keys)
  {
  }

  /** Pruning a table whose entries are sound apart from being FINISHED gives a sound table. */
  lemma PruneOk(t: map<nat, Entry>, counter: nat)
    requires forall k :: k in t ==>
      && k < counter
      && (t[k].pid.Some? ==> t[k].pid.value == k)
      && (t[k].state != Added ==> t[k].pid == Some(k))
    ensures TableOk(Prune(t), counter)
  {
  }
}
