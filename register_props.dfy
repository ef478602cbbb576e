/** What `setRegister` and `deleteRegister` promise about the register list and the pass they run. */
module RegisterProps {
  import opened Define
  import opened Values
  import opened Engine
  import DispatchProps

  /** Deleting a register that was just set, when it was not set before, restores the list exactly. */
  lemma RegisterRoundTrip(rs: seq<string>, name: string)
    requires name !in rs
    ensures RemoveRegister(AddRegister(rs, name), name) == rs
  {
    var added := rs + [name];
    assert Find(added, name) == |rs| by {
      assert added[|rs|] == name && added[..|rs|] == rs;
    }
    assert added[..|rs|] + added[|rs| + 1..] == rs;
  }

  /** Setting a register twice is the same as setting it once. */
  lemma AddRegisterIdempotent(rs: seq<string>, name: string)
    ensures AddRegister(AddRegister(rs, name), name) == AddRegister(rs, name)
  {
  }

  /** Deleting a register that is not set leaves the list alone. */
  lemma RemoveRegisterAbsent(rs: seq<string>, name: string)
    requires name !in rs
    ensures RemoveRegister(rs, name) == rs
  {
  }

  /** Both register operations keep the engine's invariant. */
  lemma RegistersWf(s: State, name: string, ev: Evaluator)
    requires Wf(s)
    ensures Wf(SetRegister(s, name, ev)) && Wf(DeleteRegister(s, name, ev))
  {
    DispatchProps.ProcessWf(s.(registers := AddRegister(s.registers, name)), ev);
    DispatchProps.ProcessWf(s.(registers := RemoveRegister(s.registers, name)), ev);
  }

  /**
   * Setting a register releases the ADDED entries that waited only on it: an entry whose
   * `queueRegister` is `name`, whose queueable is registered and ready and whose statement
   * holds is RUNNING after the pass `setRegister` runs.
   */
  lemma SetRegisterReleases(s: State, name: string, ev: Evaluator, k: nat)
    requires k in s.table && s.table[k].state == Added
    requires s.table[k].cmd.options.queueRegister == Some(name)
    requires s.table[k].cmd.queueable in s.queueables && s.queueables[s.table[k].cmd.queueable].ready
    requires StatementOk(s.table[k].cmd.options, s.memory, ev)
    ensures SetRegister(s, name, ev).table[k].state == Running
  {
  }

  /**
   * Deleting a register holds back the entries that wait on it: after `deleteRegister` an
   * ADDED entry whose `queueRegister` is `name` stays ADDED and unchanged.
   */
  lemma DeleteRegisterHolds(s: State, name: string, ev: Evaluator, k: nat)
    requires Distinct(s.registers)
    requires k in s.table && s.table[k].state == Added
    requires s.table[k].cmd.options.queueRegister == Some(name) && name != ""
    ensures DeleteRegister(s, name, ev).table[k] == s.table[k]
  {
  }
}
