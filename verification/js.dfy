/** JavaScript values as far as the rule engine inspects them: truthiness, property
    reads, `Object.keys` order and `Object.assign`. */
module Js {

  datatype Option<+T> = None | Some(value: T)

  datatype Result<+T, +E> = Ok(value: T) | Err(error: E)

  /** A JavaScript value. An object keeps its own properties in the order
      `Object.keys` reports them, which for keys that are not array indices is
      insertion order; array-index keys such as `"1"`, which JavaScript lists
      first in ascending order, are not modelled. Numbers are modelled as
      integers: the core only compares them with small integer literals. */
  datatype Value =
    | Undefined
    | Null
    | Bool(b: bool)
    | Num(n: int)
    | Str(s: string)
    | Arr(items: seq<Value>)
    | Obj(entries: seq<(string, Value)>)

  /** JavaScript truthiness: `undefined`, `null`, `false`, `0` and `""` are falsy;
      every array and object, even an empty one, is truthy. */
  predicate Truthy(v: Value) {
    match v
    case Undefined => false
    case Null => false
    case Bool(b) => b
    case Num(n) => n != 0
    case Str(s) => s != ""
    case Arr(_) => true
    case Obj(_) => true
  }

  /** `a || b`: the first operand when it is truthy, otherwise the second. */
  function Or(a: Value, b: Value): Value {
    if Truthy(a) then a else b
  }

  predicate HasKeyIn(entries: seq<(string, Value)>, k: string) {
    entries != [] && (entries[0].0 == k || HasKeyIn(entries[1..], k))
  }

  /** The value stored under `k`, or `undefined` when there is none. */
  function Lookup(entries: seq<(string, Value)>, k: string): Value {
    if entries == [] then Undefined
    else if entries[0].0 == k then entries[0].1
    else Lookup(entries[1..], k)
  }

  lemma {:induction false} LookupAbsent(entries: seq<(string, Value)>, k: string)
    ensures !HasKeyIn(entries, k) ==> Lookup(entries, k) == Undefined
  {
    if entries != [] {
      LookupAbsent(entries[1..], k);
    }
  }

  /** A JavaScript object never has the same own key twice. */
  predicate UniqueKeys(entries: seq<(string, Value)>) {
    entries == [] || (!HasKeyIn(entries[1..], entries[0].0) && UniqueKeys(entries[1..]))
  }

  /** The own enumerable properties that `Object.keys` and `Object.assign` see;
      `null`, `undefined`, booleans and numbers have none. The index keys of
      strings and arrays (`Object.keys("ab")` is `["0", "1"]`) are not modelled:
      they contribute none here. */
  function OwnEntries(v: Value): seq<(string, Value)> {
    if v.Obj? then v.entries else []
  }

  /** `v[k]` on a value that is not `null` or `undefined`. */
  function Get(v: Value, k: string): Value {
    Lookup(OwnEntries(v), k)
  }

  predicate HasKey(v: Value, k: string) {
    HasKeyIn(OwnEntries(v), k)
  }

  function Replace(entries: seq<(string, Value)>, k: string, x: Value): seq<(string, Value)> {
    if entries == [] then []
    else (if entries[0].0 == k then [(k, x)] else [entries[0]]) + Replace(entries[1..], k, x)
  }

  /** `target[k] = x`: an existing key keeps its place, a new key goes last. */
  function Put(entries: seq<(string, Value)>, k: string, x: Value): seq<(string, Value)> {
    if HasKeyIn(entries, k) then Replace(entries, k, x) else entries + [(k, x)]
  }

  /** `Object.assign(target, source)` for one source, property by property in key order. */
  function Assign(target: seq<(string, Value)>, source: seq<(string, Value)>): seq<(string, Value)>
    decreases |source|
  {
    if source == [] then target
    else Assign(Put(target, source[0].0, source[0].1), source[1..])
  }

  lemma {:induction false} LookupReplace(entries: seq<(string, Value)>, k: string, x: Value, j: string)
    requires HasKeyIn(entries, k)
    ensures Lookup(Replace(entries, k, x), j) == if j == k then x else Lookup(entries, j)
    ensures HasKeyIn(Replace(entries, k, x), j) == HasKeyIn(entries, j)
  {
    var r := Replace(entries, k, x);
    var head: seq<(string, Value)> := if entries[0].0 == k then [(k, x)] else [entries[0]];
    assert r == head + Replace(entries[1..], k, x);
    assert r[1..] == Replace(entries[1..], k, x);
    if entries[0].0 == k {
      ReplaceAbsent(entries[1..], k, x, j);
    } else {
      LookupReplace(entries[1..], k, x, j);
    }
  }

  lemma {:induction false} ReplaceAbsent(entries: seq<(string, Value)>, k: string, x: Value, j: string)
    ensures j != k ==> Lookup(Replace(entries, k, x), j) == Lookup(entries, j)
    ensures HasKeyIn(Replace(entries, k, x), j) == HasKeyIn(entries, j)
  {
    if entries != [] {
      var r := Replace(entries, k, x);
      assert r[1..] == Replace(entries[1..], k, x);
      ReplaceAbsent(entries[1..], k, x, j);
    }
  }

  lemma {:induction false} LookupAppend(entries: seq<(string, Value)>, k: string, x: Value, j: string)
    requires !HasKeyIn(entries, k)
    ensures Lookup(entries + [(k, x)], j) == if j == k && !HasKeyIn(entries, j) then x else Lookup(entries, j)
    ensures HasKeyIn(entries + [(k, x)], j) == (j == k || HasKeyIn(entries, j))
  {
    if entries == [] {
      assert ([] + [(k, x)])[1..] == [];
    } else {
      assert (entries + [(k, x)])[1..] == entries[1..] + [(k, x)];
      LookupAppend(entries[1..], k, x, j);
    }
  }

  /** Writing a property: the key now reads as `x`, every other key is unchanged. */
  lemma LookupPut(entries: seq<(string, Value)>, k: string, x: Value, j: string)
    ensures Lookup(Put(entries, k, x), j) == if j == k then x else Lookup(entries, j)
    ensures HasKeyIn(Put(entries, k, x), j) == (j == k || HasKeyIn(entries, j))
  {
    if HasKeyIn(entries, k) {
      LookupReplace(entries, k, x, j);
      assert j == k ==> HasKeyIn(entries, j);
    } else {
      LookupAppend(entries, k, x, j);
    }
  }

  /** `Object.assign` semantics: a key the source has reads as the source's value;
      every other key keeps the target's value. */
  lemma {:induction false} LookupAssign(target: seq<(string, Value)>, source: seq<(string, Value)>, j: string)
    requires UniqueKeys(source)
    ensures Lookup(Assign(target, source), j) == if HasKeyIn(source, j) then Lookup(source, j) else Lookup(target, j)
    ensures HasKeyIn(Assign(target, source), j) == (HasKeyIn(source, j) || HasKeyIn(target, j))
    decreases |source|
  {
    if source != [] {
      var (k, x) := source[0];
      var put := Put(target, k, x);
      LookupPut(target, k, x, j);
      LookupAssign(put, source[1..], j);
      if j == k {
        assert !HasKeyIn(source[1..], j);
      }
    }
  }
}
