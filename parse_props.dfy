/** What the head split of `commandParse` promises. */
module ParseProps {
  import opened Values
  import opened Define
  import opened Engine
  import SubmitProps

  /** The text before the first `c` of `a + [c] + b`, when `a` has no `c`, is `a`. */
  lemma {:induction false} BeforeFirst(a: string, c: char, b: string)
    requires c !in a
    ensures Before(a + [c] + b, c) == Some(a)
    decreases |a|
  {
    var text := a + [c] + b;
    if a == [] {
      assert text[0] == c;
    } else {
      assert c !in a[1..];
      BeforeFirst(a[1..], c, b);
      assert text[0] == a[0] != c;
      assert text[1..] == a[1..] + [c] + b;
      assert [a[0]] + a[1..] == a;
    }
  }

  /** `queueable.command(…)` splits into its queueable and its command. */
  lemma ParseHeadCommand(q: string, command: string, rest: string)
    requires '.' !in q && '(' !in q && '.' !in command && '(' !in command
    ensures ParseHead(q + "." + command + "(" + rest) == Some(Head(q, Some(command)))
  {
    var callee := q + "." + command;
    assert q + "." + command + "(" + rest == callee + ['('] + rest;
    BeforeFirst(callee, '(', rest);
    assert callee == q + ['.'] + command;
    BeforeFirst(q, '.', command);
    assert callee[|q| + 1..] == command;
    assert '.' !in command;
  }

  /** `queueable(…)` with no dot names the queueable and leaves the command undefined. */
  lemma ParseHeadBare(q: string, rest: string)
    requires '.' !in q && '(' !in q
    ensures ParseHead(q + "(" + rest) == Some(Head(q, None))
  {
    assert q + "(" + rest == q + ['('] + rest;
    BeforeFirst(q, '(', rest);
  }

  /** A command text without '(' does not parse. */
  lemma ParseHeadNoCall(text: string)
    requires '(' !in text
    ensures ParseHead(text) == None
  {
  }

  /** A command is Instant only when its options say so; otherwise it is an Event at the top and a Sub below. */
  lemma DefaultRunKinds(given: Option<RunKind>, isParent: bool)
    ensures given.Some? ==> DefaultRun(given, isParent) == given.value
    ensures given.None? ==> DefaultRun(given, isParent) == (if isParent then Event else Sub)
    ensures DefaultRun(given, isParent) == Instant ==> given == Some(Instant)
  {
  }

  /**
   * Commands parsed without a `queueRun` are never Instant, so submitting them adds nothing
   * to the live table: they only register templates or wait as links of a chain.
   */
  lemma {:induction false} DefaultedNotQueued(s: State, cs: seq<Command>)
    requires forall k :: k in s.table ==> k < s.counter
    requires forall i :: 0 <= i < |cs| ==>
      cs[i].options.queueRun == Some(DefaultRun(None, true)) || cs[i].options.queueRun == Some(DefaultRun(None, false))
    ensures SubmitAll(s, cs).table == s.table && SubmitAll(s, cs).counter == s.counter
  {
    NoInstants(cs);
    SubmitProps.SubmitAllTable(s, cs);
  }

  /** None of the commands parsed without a `queueRun` is Instant. */
  lemma {:induction false} NoInstants(cs: seq<Command>)
    requires forall i :: 0 <= i < |cs| ==>
      cs[i].options.queueRun == Some(DefaultRun(None, true)) || cs[i].options.queueRun == Some(DefaultRun(None, false))
    ensures SubmitProps.Instants(cs) == []
    decreases |cs|
  {
    if cs != [] {
      NoInstants(cs[..|cs| - 1]);
    }
  }
}
