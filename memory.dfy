/** Memory items (Memory.js): a named value with an owner pid, a lifecycle mode and an origin. */
module Memory {
  import opened Define
  import opened Values

  /** The four fields of a memory item, as `_store` serialises them for durable storage. */
  datatype Snapshot = Snapshot(pid: int, mode: MemoryMode, origin: string, value: Value)

  /**
   * The value `toggle(values)` moves to: the candidate after the first one strictly equal to
   * `current`, wrapping to the first candidate after the last one and when `current` is not
   * listed; `values[0]` of an empty list is undefined.
   */
  function ToggleNext(current: Value, values: seq<Value>): Value {
    var pos := IndexOf(values, current) + 1;
    var p := if pos >= |values| then 0 else pos;
    if p < |values| then values[p] else Undefined
  }

  /** A listed value that is not the last candidate advances to the next candidate. */
  lemma ToggleAdvances(current: Value, values: seq<Value>, i: nat)
    requires i + 1 < |values|
    requires StrictEquals(values[i], current)
    requires forall j :: 0 <= j < i ==> !StrictEquals(values[j], current)
    ensures ToggleNext(current, values) == values[i + 1]
  {
  }

  /** A value first listed at the last position wraps to the first candidate. */
  lemma ToggleWraps(current: Value, values: seq<Value>)
    requires |values| > 0
    requires StrictEquals(values[|values| - 1], current)
    requires forall j :: 0 <= j < |values| - 1 ==> !StrictEquals(values[j], current)
    ensures ToggleNext(current, values) == values[0]
  {
  }

  /** A value that is not listed (indexOf gives -1) moves to the first candidate. */
  lemma ToggleUnlisted(current: Value, values: seq<Value>)
    requires forall j :: 0 <= j < |values| ==> !StrictEquals(values[j], current)
    ensures |values| > 0 ==> ToggleNext(current, values) == values[0]
    ensures |values| == 0 ==> ToggleNext(current, values) == Undefined
  {
  }

  class Memory {
    var pid: int
    var mode: MemoryMode
    var origin: string
    var value: Value

    /** Stores the owner pid, mode, origin and value unchanged. */
    constructor(pid: int, mode: MemoryMode, origin: string, value: Value)
      ensures this.pid == pid && this.mode == mode && this.origin == origin && this.value == value
    {
      this.pid := pid;
      this.mode := mode;
      this.origin := origin;
      this.value := value;
    }

    /** The current value; nothing changes. */
    method Get() returns (v: Value)
      ensures v == value
    {
      v := value;
    }

    /** Moves the value to the next candidate of `values` and returns the value held before. */
    method Toggle(values: seq<Value>) returns (prior: Value)
      modifies this`value
      ensures prior == old(value)
      ensures value == ToggleNext(old(value), values)
      ensures pid == old(pid) && mode == old(mode) && origin == old(origin)
    {
      prior := value;
      var pos := IndexOf(values, value) + 1;
      if pos >= |values| {
        pos := 0;
      }
      value := if pos < |values| then values[pos] else Undefined;
    }

    /** The snapshot `_store` encodes: exactly the pid, mode, origin and value. */
    function Store(): (s: Snapshot)
      reads this
      ensures s.pid == pid && s.mode == mode && s.origin == origin && s.value == value
    {
      Snapshot(pid, mode, origin, value)
    }
  }
}
