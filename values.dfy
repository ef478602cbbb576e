/**
 * The JavaScript values the engine moves around: command arguments, memory values and the
 * results of evaluated statements. Every value the engine stores went through a JSON copy,
 * so values are plain trees; numbers are modelled as integers.
 */
module Values {

  datatype Option<+T> = None | Some(value: T)

  datatype Value =
    | Undefined
    | Null
    | Bool(b: bool)
    | Num(n: int)
    | Str(s: string)
    | Arr(items: seq<Value>)
    | Obj(fields: map<string, Value>)

  /** JavaScript truthiness: `if (v)`, `v || d`, `!v`. */
  predicate Truthy(v: Value) {
    match v
    case Undefined => false
    case Null => false
    case Bool(b) => b
    case Num(n) => n != 0
    case Str(s) => s != ""
    case Arr(_) => true
    case Obj(_) => true
  }

  predicate IsPrimitive(v: Value) {
    !v.Arr? && !v.Obj?
  }

  /**
   * `a === b` between values that are each their own JSON copy: primitives compare by value,
   * while two arrays or objects are never the same object.
   */
  predicate StrictEquals(a: Value, b: Value) {
    IsPrimitive(a) && a == b
  }

  /** `xs.indexOf(v)`: the first index holding a value strictly equal to `v`, or -1. */
  function IndexOf(xs: seq<Value>, v: Value): (i: int)
    ensures -1 <= i < |xs|
    ensures i == -1 <==> forall j :: 0 <= j < |xs| ==> !StrictEquals(xs[j], v)
    ensures 0 <= i ==> StrictEquals(xs[i], v) && forall j :: 0 <= j < i ==> !StrictEquals(xs[j], v)
  {
    if xs == [] then -1
    else if StrictEquals(xs[0], v) then 0
    else
      var k := IndexOf(xs[1..], v);
      if k == -1 then -1 else k + 1
  }

  /** `v.key` read from an arguments value: Undefined when `v` is not an object or lacks the key. */
  function Get(v: Value, key: string): Value {
    if v.Obj? && key in v.fields then v.fields[key] else Undefined
  }

  /**
   * The properties every plain object `{}` inherits from `Object.prototype`. A table kept in a
   * plain object finds something under these names even when nothing was stored under them.
   */
  const ObjectProperties: set<string> := {"constructor", "__proto__", "toString", "toLocaleString",
    "valueOf", "hasOwnProperty", "isPrototypeOf", "propertyIsEnumerable", "__defineGetter__",
    "__defineSetter__", "__lookupGetter__", "__lookupSetter__"}

  /** `Object.assign` on an undefined or null target throws before copying anything. */
  predicate AssignThrows(target: Value) {
    target.Undefined? || target.Null?
  }

  /**
   * The own enumerable properties `Object.assign` copies from a source: an object's fields, an
   * array's elements and a string's characters under their index keys; other values have none.
   */
  function OwnFields(source: Value): (m: map<string, Value>)
    ensures source.Obj? ==> m == source.fields
    ensures source.Arr? ==> forall i :: 0 <= i < |source.items| ==>
      NatToString(i) in m && m[NatToString(i)] == source.items[i]
    ensures source.Str? ==> forall i :: 0 <= i < |source.s| ==>
      NatToString(i) in m && m[NatToString(i)] == Str([source.s[i]])
    ensures forall k :: k in m && !source.Obj? ==> exists i: nat :: k == NatToString(i)
    ensures !source.Obj? && !source.Arr? && !source.Str? ==> m == map[]
  {
    match source
    case Obj(fields) => fields
    case Arr(items) => IndexFields(items, |items|)
    case Str(text) => IndexFields(Chars(text), |text|)
    case _ => map[]
  }

  /** The characters of a string, each as a one-character string value. */
  function Chars(text: string): (r: seq<Value>)
    ensures |r| == |text| && forall i :: 0 <= i < |text| ==> r[i] == Str([text[i]])
  {
    if text == [] then [] else [Str([text[0]])] + Chars(text[1..])
  }

  /** The first `n` elements of `items` under their index keys "0", "1", …. */
  function IndexFields(items: seq<Value>, n: nat): (m: map<string, Value>)
    requires n <= |items|
    ensures IndexedBy(m, items, n)
  {
    if n == 0 then map[]
    else
      var m := IndexFields(items, n - 1);
      IndexFieldsStep(items, n, m);
      m[NatToString(n - 1) := items[n - 1]]
  }

  /** `m` holds exactly the first `n` elements of `items`, each under its index key. */
  ghost predicate IndexedBy(m: map<string, Value>, items: seq<Value>, n: nat)
    requires n <= |items|
  {
    && (forall i :: 0 <= i < n ==> NatToString(i) in m && m[NatToString(i)] == items[i])
    && (forall k :: k in m ==> exists i: nat :: i < n && k == NatToString(i))
  }

  /** Adding element `n - 1` under its key extends an index map of the first `n - 1`. */
  lemma IndexFieldsStep(items: seq<Value>, n: nat, m: map<string, Value>)
    requires 0 < n <= |items| && IndexedBy(m, items, n - 1)
    ensures IndexedBy(m[NatToString(n - 1) := items[n - 1]], items, n)
  {
    var m' := m[NatToString(n - 1) := items[n - 1]];
    forall i | 0 <= i < n
      ensures NatToString(i) in m' && m'[NatToString(i)] == items[i]
    {
      if i < n - 1 {
        NatToStringInjective(i, n - 1);
      }
    }
    forall k | k in m'
      ensures exists i: nat :: i < n && k == NatToString(i)
    {
      if k != NatToString(n - 1) {
        var i: nat :| i < n - 1 && k == NatToString(i);
      }
    }
  }

  /** Index arrays element by element: an array or string source overwrites the first positions. */
  function Overlay(target: seq<Value>, source: seq<Value>): (r: seq<Value>)
    ensures |r| == if |source| < |target| then |target| else |source|
    ensures forall i :: 0 <= i < |source| ==> r[i] == source[i]
    ensures forall i :: |source| <= i < |target| ==> r[i] == target[i]
  {
    if |source| < |target| then source + target[|source|..] else source
  }

  /**
   * `Object.assign(target, source)` seen through the JSON copy that follows it. An object
   * target takes every own property of the source (an array's or string's indices included);
   * an array target has its first elements overwritten by an array's or string's elements;
   * any other combination leaves the target as JSON sees it. A nullish target throws
   * (`AssignThrows`) and is left unchanged here.
   */
  function Assign(target: Value, source: Value): (r: Value)
    ensures target.Obj? ==>
      && r.Obj?
      && r.fields.Keys == target.fields.Keys + OwnFields(source).Keys
      && (forall k :: k in OwnFields(source) ==> r.fields[k] == OwnFields(source)[k])
      && (forall k :: k in target.fields && k !in OwnFields(source) ==> r.fields[k] == target.fields[k])
    ensures target.Arr? && (source.Arr? || source.Str?) ==>
      var src := if source.Arr? then source.items else Chars(source.s);
      && r.Arr?
      && |r.items| == (if |src| < |target.items| then |target.items| else |src|)
      && (forall i :: 0 <= i < |src| ==> r.items[i] == src[i])
      && (forall i :: |src| <= i < |target.items| ==> r.items[i] == target.items[i])
    ensures !target.Obj? && !(target.Arr? && (source.Arr? || source.Str?)) ==> r == target
  {
    if target.Obj? then Obj(target.fields + OwnFields(source))
    else if target.Arr? && source.Arr? then Arr(Overlay(target.items, source.items))
    else if target.Arr? && source.Str? then Arr(Overlay(target.items, Chars(source.s)))
    else target
  }

  function DigitChar(d: nat): char
    requires d < 10
  {
    ('0' as int + d) as char
  }

  /** Decimal rendering of a natural number. */
  function NatToString(n: nat): (s: string)
    ensures |s| >= 1
    ensures forall i :: 0 <= i < |s| ==> '0' <= s[i] <= '9'
  {
    if n < 10 then [DigitChar(n)] else NatToString(n / 10) + [DigitChar(n % 10)]
  }

  /** Different numbers have different decimal renderings. */
  lemma {:induction false} NatToStringInjective(a: nat, b: nat)
    requires a != b
    ensures NatToString(a) != NatToString(b)
    decreases a + b
  {
    var sa, sb := NatToString(a), NatToString(b);
    if a < 10 && b < 10 {
      assert sa[0] == DigitChar(a) != DigitChar(b) == sb[0];
    } else if a < 10 {
      assert |sb| == |NatToString(b / 10)| + 1 > 1 == |sa|;
    } else if b < 10 {
      assert |sa| == |NatToString(a / 10)| + 1 > 1 == |sb|;
    } else {
      var pa, pb := NatToString(a / 10), NatToString(b / 10);
      assert sa == pa + [DigitChar(a % 10)] && sb == pb + [DigitChar(b % 10)];
      if a % 10 != b % 10 {
        assert sa[|sa| - 1] == DigitChar(a % 10) != DigitChar(b % 10) == sb[|sb| - 1];
      } else {
        NatToStringInjective(a / 10, b / 10);
        assert pa == sa[..|sa| - 1] && pb == sb[..|sb| - 1];
      }
    }
  }

  /** `String(v)`: the property key a value becomes when it is used to index an object. */
  function ToKey(v: Value): string
    decreases v, 1
  {
    match v
    case Undefined => "undefined"
    case Null => "null"
    case Bool(b) => if b then "true" else "false"
    case Num(n) => if n < 0 then "-" + NatToString(-n) else NatToString(n)
    case Str(s) => s
    case Arr(items) => JoinKeys(items)
    case Obj(_) => "[object Object]"
  }

  /** `items.join(",")`, where undefined and null elements render as the empty string. */
  function JoinKeys(items: seq<Value>): string
    decreases items, 0
  {
    if items == [] then ""
    else
      var head := if items[0].Undefined? || items[0].Null? then "" else ToKey(items[0]);
      if |items| == 1 then head else head + "," + JoinKeys(items[1..])
  }
}
