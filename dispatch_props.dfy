/** What one `queueProcess` pass promises. */
module DispatchProps {
  import opened Define
  import opened Values
  import opened Engine

  /**
   * A pass changes only ADDED entries. An ADDED entry becomes RUNNING exactly when its
   * queueable is registered and ready, its register (if any) is set and its statement (if
   * any) holds; otherwise it stays as it was.
   */
  lemma ProcessEligibility(s: State, ev: Evaluator, k: nat)
    requires k in s.table
    ensures k in ProcessTable(s, ev)
    ensures s.table[k].state != Added ==> ProcessTable(s, ev)[k] == s.table[k]
    ensures s.table[k].state == Added ==>
      (ProcessTable(s, ev)[k].state == Running <==>
        && s.table[k].cmd.queueable in s.queueables
        && s.queueables[s.table[k].cmd.queueable].ready
        && (!Given(s.table[k].cmd.options.queueRegister) || s.table[k].cmd.options.queueRegister.value in s.registers)
        && (!Given(s.table[k].cmd.options.queueStatement) || Holds(ev, s.table[k].cmd.options.queueStatement.value, s.memory)))
    ensures ProcessTable(s, ev)[k].state != Running ==> ProcessTable(s, ev)[k] == s.table[k]
  {
  }

  /**
   * A dispatched entry gets its key as pid when it had none, and a timer (its own when
   * non-zero, else 10); its command, arguments, chain and stack are untouched.
   */
  lemma LaunchDetails(s: State, ev: Evaluator, k: nat)
    requires TableOk(s.table, s.counter)
    requires k in s.table && Dispatchable(s.table[k], s, ev)
    ensures var e := ProcessTable(s, ev)[k];
      && e.state == Running
      && e.pid == Some(k)
      && e.cmd.options.queueTimer == Some(if s.table[k].cmd.options.queueTimer.Some? && s.table[k].cmd.options.queueTimer.value != 0
                                          then s.table[k].cmd.options.queueTimer.value else 10)
      && e.cmd.options == s.table[k].cmd.options.(queueTimer := e.cmd.options.queueTimer)
      && e.cmd.queueable == s.table[k].cmd.queueable && e.cmd.command == s.table[k].cmd.command
      && e.cmd.json == s.table[k].cmd.json && e.cmd.commands == s.table[k].cmd.commands
      && e.stack == s.table[k].stack && e.error == s.table[k].error
  {
  }

  /** An ADDED entry under key `k` whose queueable is neither registered nor an inherited name. */
  predicate Lost(t: map<nat, Entry>, queueables: map<string, Capability>, k: nat) {
    k in t && t[k].state == Added && t[k].cmd.queueable !in queueables
    && t[k].cmd.queueable !in ObjectProperties
  }

  /** The unknown-queueable diagnostics of a pass: one per ADDED entry whose queueable is not registered. */
  lemma {:induction false} UnfoundCount(t: map<nat, Entry>, queueables: map<string, Capability>, n: nat)
    ensures |Unfound(t, queueables, n)| == |set k: nat | k < n && Lost(t, queueables, k)|
    decreases n
  {
    if n > 0 {
      UnfoundCount(t, queueables, n - 1);
      var below := set k: nat | k < n - 1 && Lost(t, queueables, k);
      var upto := set k: nat | k < n && Lost(t, queueables, k);
      if Lost(t, queueables, n - 1) {
        assert upto == below + {n - 1};
      } else {
        assert upto == below;
      }
    }
  }

  /** Each diagnostic of a pass names the queueable of an ADDED entry that is not registered. */
  lemma {:induction false} UnfoundNames(t: map<nat, Entry>, queueables: map<string, Capability>, n: nat)
    ensures forall r :: r in Unfound(t, queueables, n) ==>
      r.NoQueueable? && r.queueable !in queueables && r.queueable !in ObjectProperties
      && exists k :: 0 <= k < n && k in t && t[k].state == Added && t[k].cmd.queueable == r.queueable
    decreases n
  {
    if n > 0 {
      UnfoundNames(t, queueables, n - 1);
    }
  }

  /** The keys a pass starts are exactly its dispatchable keys, each once, in ascending order. */
  lemma StartedIsDispatchable(s: State, ev: Evaluator)
    requires TableOk(s.table, s.counter)
    ensures forall k :: k in Started(s, ev) <==> k in s.table && Dispatchable(s.table[k], s, ev)
    ensures forall i, j :: 0 <= i < j < |Started(s, ev)| ==> Started(s, ev)[i] < Started(s, ev)[j]
  {
  }

  /**
   * A second pass with nothing changed in between starts nothing and leaves the table as the
   * first pass left it: every entry the first pass left ADDED is still not dispatchable. Its
   * only effect is to report the unknown queueables of the first pass again.
   */
  lemma ProcessIdempotent(s: State, ev: Evaluator)
    requires TableOk(s.table, s.counter)
    ensures ProcessTable(Process(s, ev), ev) == ProcessTable(s, ev)
    ensures Started(Process(s, ev), ev) == []
    ensures Process(Process(s, ev), ev) ==
      Process(s, ev).(reports := Process(s, ev).reports + Unfound(s.table, s.queueables, s.counter))
  {
    var s1 := Process(s, ev);
    forall k | k in s1.table
      ensures !Dispatchable(s1.table[k], s1, ev)
    {
      if s1.table[k].state == Added {
        assert s1.table[k] == s.table[k];
      }
    }
    NothingStarts(s1, ev, s1.counter);
    UnfoundAfterPass(s, ev, s.counter);
  }

  /** A pass leaves the unknown-queueable diagnostics of the table as they were. */
  lemma {:induction false} UnfoundAfterPass(s: State, ev: Evaluator, n: nat)
    ensures Unfound(ProcessTable(s, ev), s.queueables, n) == Unfound(s.table, s.queueables, n)
    decreases n
  {
    if n > 0 {
      UnfoundAfterPass(s, ev, n - 1);
      var k := n - 1;
      if k in s.table && !Dispatchable(s.table[k], s, ev) {
        assert ProcessTable(s, ev)[k] == s.table[k];
      }
    }
  }

  /** A pass over a table with no dispatchable entry starts nothing. */
  lemma {:induction false} NothingStarts(s: State, ev: Evaluator, n: nat)
    requires forall k :: k in s.table ==> !Dispatchable(s.table[k], s, ev)
    ensures StartedKeys(s, ev, n) == []
    decreases n
  {
    if n > 0 {
      NothingStarts(s, ev, n - 1);
    }
  }

  /** A pass keeps the engine's invariant. */
  lemma ProcessWf(s: State, ev: Evaluator)
    requires Wf(s)
    ensures Wf(Process(s, ev))
  {
  }

  /** A pass starts work but finishes none: the set of entries neither FINISHED nor ERROR is unchanged. */
  lemma ProcessKeepsActive(s: State, ev: Evaluator)
    ensures ActiveKeys(ProcessTable(s, ev)) == ActiveKeys(s.table)
  {
  }

  /** An ERROR entry is left alone by a pass: the chain stays on hold. */
  lemma ErrorIsSticky(s: State, ev: Evaluator, k: nat)
    requires k in s.table && s.table[k].state == Error
    ensures ProcessTable(s, ev)[k] == s.table[k]
  {
  }
}
