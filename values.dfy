/**
 * The Python values that cross the utilities' interfaces: tool arguments,
 * schema fragments and logging contexts. Dictionaries keep Python's insertion
 * order, so a dictionary is a sequence of (key, value) entries.
 * Floating-point numbers are not part of this model.
 */
module PyValues {
  import opened Wrappers

  /** A JSON-like Python value; `Null` is Python's `None`. */
  datatype Value =
    | Null
    | Bool(b: bool)
    | Int(i: int)
    | Str(s: string)
    | List(items: seq<Value>)
    | Dict(entries: seq<(string, Value)>)

  type Entries = seq<(string, Value)>

  /** The keys of a dictionary, in insertion order. */
  function Keys(es: Entries): (ks: seq<string>)
    ensures |ks| == |es|
    ensures forall i :: 0 <= i < |es| ==> ks[i] == es[i].0
  {
    if es == [] then [] else [es[0].0] + Keys(es[1..])
  }

  /** `key in d` for a dictionary `d`. */
  predicate HasKey(es: Entries, key: string) {
    exists i :: 0 <= i < |es| && es[i].0 == key
  }

  /** `d.get(key)`: the value stored under `key`, if any. */
  function Lookup(es: Entries, key: string): (r: Option<Value>)
    ensures r.Some? <==> HasKey(es, key)
    ensures r.Some? ==> exists i :: 0 <= i < |es| && es[i] == (key, r.value)
  {
    if es == [] then None
    else if es[0].0 == key then Some(es[0].1)
    else
      var r := Lookup(es[1..], key);
      assert r.Some? ==> exists i :: 1 <= i < |es| && es[i] == (key, r.value) by {
        if r.Some? {
          var i :| 0 <= i < |es[1..]| && es[1..][i] == (key, r.value);
          assert es[i + 1] == (key, r.value);
        }
      }
      assert HasKey(es[1..], key) ==> HasKey(es, key) by {
        if HasKey(es[1..], key) {
          var i :| 0 <= i < |es[1..]| && es[1..][i].0 == key;
          assert es[i + 1].0 == key;
        }
      }
      assert HasKey(es, key) ==> HasKey(es[1..], key) by {
        if HasKey(es, key) {
          var i :| 0 <= i < |es| && es[i].0 == key;
          assert i != 0;
          assert es[1..][i - 1].0 == key;
        }
      }
      r
  }

  /** `1 if b else 0`: a Python bool is the int 0 or 1. */
  function BoolToInt(b: bool): int {
    if b then 1 else 0
  }

  /**
   * Python's `==` on these values: `True == 1` and `False == 0` because
   * `bool` is a subclass of `int`; lists compare element-wise; dictionaries
   * compare as key/value mappings, ignoring insertion order.
   */
  predicate Eq(a: Value, b: Value)
    decreases a
  {
    match a
    case Null => b.Null?
    case Bool(x) => (b.Bool? && b.b == x) || (b.Int? && b.i == BoolToInt(x))
    case Int(x) => (b.Int? && b.i == x) || (b.Bool? && x == BoolToInt(b.b))
    case Str(x) => b.Str? && b.s == x
    case List(xs) =>
      b.List? && |xs| == |b.items| &&
      forall k :: 0 <= k < |xs| ==> Eq(xs[k], b.items[k])
    case Dict(es) =>
      b.Dict? && |es| == |b.entries| &&
      forall k :: 0 <= k < |es| ==>
        exists j :: 0 <= j < |b.entries| && b.entries[j].0 == es[k].0 && Eq(es[k].1, b.entries[j].1)
  }

  /** `value in xs` for a Python list `xs`. */
  predicate In(value: Value, xs: seq<Value>) {
    exists k :: 0 <= k < |xs| && Eq(value, xs[k])
  }
}
