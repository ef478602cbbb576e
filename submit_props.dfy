/** What `commandsQueue` and `execute` promise about the live table and the prepared templates. */
module SubmitProps {
  import opened Define
  import opened Values
  import opened Engine

  /** The Instant commands of `cs`, in order: the ones that enter the live table. */
  function Instants(cs: seq<Command>): seq<Command>
    decreases |cs|
  {
    if cs == [] then []
    else
      var c := cs[|cs| - 1];
      Instants(cs[..|cs| - 1]) + if c.options.queueRun == Some(Instant) then [c] else []
  }

  /** The last command of `cs` that prepares under `name`: the one the registry keeps. */
  function LastPrepared(cs: seq<Command>, name: string): Option<Command>
    decreases |cs|
  {
    if cs == [] then None
    else
      var c := cs[|cs| - 1];
      if c.options.queuePrepare == Some(name) then Some(c) else LastPrepared(cs[..|cs| - 1], name)
  }

  /**
   * Submission inserts the Instant commands, and only those, under the fresh keys
   * `counter, counter+1, …` in order, each ADDED with an empty stack, no pid and no error;
   * the counter grows by their number and every earlier entry is kept.
   */
  lemma {:induction false} SubmitAllTable(s: State, cs: seq<Command>)
    requires forall k :: k in s.table ==> k < s.counter
    ensures SubmitAll(s, cs).counter == s.counter + |Instants(cs)|
    ensures forall k :: k in SubmitAll(s, cs).table <==> k in s.table || s.counter <= k < SubmitAll(s, cs).counter
    ensures forall k :: k in s.table ==> SubmitAll(s, cs).table[k] == s.table[k]
    ensures forall i :: 0 <= i < |Instants(cs)| ==>
      SubmitAll(s, cs).table[s.counter + i] == Entry(None, Instants(cs)[i], Added, map[], None)
    decreases |cs|
  {
    if cs != [] {
      var init := cs[..|cs| - 1];
      var c := cs[|cs| - 1];
      SubmitAllTable(s, init);
      var r0 := SubmitAll(s, init);
      if c.options.queueRun == Some(Instant) {
        assert Instants(cs) == Instants(init) + [c];
        assert SubmitAll(s, cs).table == r0.table[r0.counter := Entry(None, c, Added, map[], None)];
      } else {
        assert Instants(cs) == Instants(init);
        assert SubmitAll(s, cs).table == r0.table;
      }
    }
  }

  /**
   * Every command with `queuePrepare` is copied into the registry under that name, a later
   * one replacing an earlier one; names no command prepares keep their template.
   */
  lemma {:induction false} SubmitAllPrepare(s: State, cs: seq<Command>, name: string)
    ensures LastPrepared(cs, name).Some? ==>
      name in SubmitAll(s, cs).prepare && SubmitAll(s, cs).prepare[name] == LastPrepared(cs, name).value
    ensures LastPrepared(cs, name).None? ==>
      (name in SubmitAll(s, cs).prepare <==> name in s.prepare)
      && (name in s.prepare ==> SubmitAll(s, cs).prepare[name] == s.prepare[name])
    decreases |cs|
  {
    if cs != [] {
      SubmitAllPrepare(s, cs[..|cs| - 1], name);
    }
  }

  /** Submission keeps the engine's invariant. */
  lemma {:induction false} SubmitAllWf(s: State, cs: seq<Command>)
    requires Wf(s)
    ensures Wf(SubmitAll(s, cs))
    decreases |cs|
  {
    if cs != [] {
      SubmitAllWf(s, cs[..|cs| - 1]);
      SubmitOneWf(SubmitAll(s, cs[..|cs| - 1]), cs[|cs| - 1]);
    }
  }

  /** One submitted command keeps the engine's invariant: its key is fresh and a template goes under its own name. */
  lemma SubmitOneWf(s: State, c: Command)
    requires Wf(s)
    ensures Wf(SubmitOne(s, c))
  {
    var s1 :=
      if c.options.queueRun == Some(Instant)
      then s.(table := s.table[s.counter := Normalize(c)], counter := s.counter + 1)
      else s;
    assert TableOk(s1.table, s1.counter);
    assert Wf(s1);
  }

  /**
   * `execute` on a name that is not a template submits nothing. An inherited name throws;
   * any other name is reported unless the call is silent.
   */
  lemma ExecuteUnknown(s: State, name: string, json: Option<Value>, silent: bool, ev: Evaluator)
    requires name !in s.prepare
    ensures !Runs(s, name, ev)
    ensures ExecuteThrows(s, name, json, ev) <==> name in ObjectProperties
    ensures Execute(s, name, json, silent, ev).table == s.table
    ensures Execute(s, name, json, silent, ev).reports ==
      if silent || name in ObjectProperties then s.reports else s.reports + [NoPrepare(name)]
  {
  }

  /**
   * `execute` on a template whose statement does not hold changes nothing; it throws exactly
   * when the statement's evaluation threw, and returns false otherwise.
   */
  lemma ExecuteGated(s: State, name: string, json: Option<Value>, silent: bool, ev: Evaluator)
    requires name in s.prepare && !StatementOk(s.prepare[name].options, s.memory, ev)
    ensures !Runs(s, name, ev)
    ensures ExecuteThrows(s, name, json, ev) <==>
      ev(s.prepare[name].options.queueStatement.value, s.memory).None?
    ensures Execute(s, name, json, silent, ev) == s
    ensures ExecuteStarted(s, name, json, ev) == []
  {
  }

  /**
   * `execute` on a runnable template throws, changing nothing, exactly when the caller passes
   * json and the template's json is undefined or null. Otherwise it submits one Instant clone
   * under the next key, ADDED, whose json is the template's with the caller's properties
   * overriding; as the clone keeps its `queuePrepare`, it also replaces the template in the
   * registry.
   */
  lemma ExecuteRuns(s: State, name: string, json: Option<Value>, silent: bool, ev: Evaluator)
    requires Wf(s) && Runs(s, name, ev)
    ensures ExecuteThrows(s, name, json, ev) <==> json.Some? && AssignThrows(s.prepare[name].json)
    ensures ExecuteThrows(s, name, json, ev) ==> Execute(s, name, json, silent, ev) == s
    ensures var s1 := SubmitAll(s, [Clone(s.prepare[name], json)]);
      !ExecuteThrows(s, name, json, ev) ==>
      && Execute(s, name, json, silent, ev) == Process(s1, ev)
      && s1.counter == s.counter + 1
      && s1.table == s.table[s.counter := Entry(None, Clone(s.prepare[name], json), Added, map[], None)]
      && s1.prepare == s.prepare[name := Clone(s.prepare[name], json)]
    ensures Clone(s.prepare[name], json).options.queueRun == Some(Instant)
    ensures json.Some? && s.prepare[name].json.Obj? ==>
      var merged := Clone(s.prepare[name], json).json;
      var own := OwnFields(json.value);
      && merged.Obj?
      && merged.fields.Keys == s.prepare[name].json.fields.Keys + own.Keys
      && (forall k :: k in own ==> merged.fields[k] == own[k])
      && (forall k :: k in s.prepare[name].json.fields && k !in own ==>
            merged.fields[k] == s.prepare[name].json.fields[k])
  {
    var c := Clone(s.prepare[name], json);
    assert [c][..0] == [];
  }

  /** `execute` never removes an entry from the live table. */
  lemma ExecuteKeepsKeys(s: State, name: string, json: Option<Value>, silent: bool, ev: Evaluator)
    ensures s.table.Keys <= Execute(s, name, json, silent, ev).table.Keys
  {
    if Runs(s, name, ev) && !ExecuteThrows(s, name, json, ev) {
      var c := Clone(s.prepare[name], json);
      assert [c][..0] == [];
    }
  }
}
