/** JSON values as the backend emits them; objects keep their keys in insertion order, as PHP arrays do. */
module Json {
  import opened Wrappers

  datatype Value =
    | Null
    | Bool(b: bool)
    | Int(i: int)
    | Float(r: real)
    | Str(s: string)
    | Arr(items: seq<Value>)
    | Obj(fields: seq<(string, Value)>)

  /** The keys of an object, in order. */
  function Keys(fields: seq<(string, Value)>): (ks: seq<string>)
    ensures |ks| == |fields|
    ensures forall i :: 0 <= i < |fields| ==> ks[i] == fields[i].0
  {
    if fields == [] then [] else [fields[0].0] + Keys(fields[1..])
  }

  /** The value under `key` (the first entry with that key), or None when the key is absent. */
  function Lookup(fields: seq<(string, Value)>, key: string): Option<Value>
  {
    if fields == [] then None
    else if fields[0].0 == key then Some(fields[0].1)
    else Lookup(fields[1..], key)
  }

  /** A lookup finds nothing exactly when the key is not among the object's keys. */
  lemma {:induction false} LookupAbsent(fields: seq<(string, Value)>, key: string)
    ensures Lookup(fields, key).None? <==> key !in Keys(fields)
  {
    if fields != [] {
      LookupAbsent(fields[1..], key);
      assert Keys(fields) == [fields[0].0] + Keys(fields[1..]);
    }
  }

  /** The entry at position `i` is what a lookup finds when no earlier entry has its key. */
  lemma {:induction false} LookupAt(fields: seq<(string, Value)>, i: nat)
    requires i < |fields|
    requires forall j :: 0 <= j < i ==> fields[j].0 != fields[i].0
    ensures Lookup(fields, fields[i].0) == Some(fields[i].1)
  {
    if i > 0 {
      assert fields[0].0 != fields[i].0;
      assert fields[1..][i - 1] == fields[i];
      LookupAt(fields[1..], i - 1);
    }
  }

  /** Reading an object built by putting one entry in front of others. */
  lemma LookupCons(k: string, v: Value, rest: seq<(string, Value)>, key: string)
    ensures Lookup([(k, v)] + rest, key) == if k == key then Some(v) else Lookup(rest, key)
    ensures Keys([(k, v)] + rest) == [k] + Keys(rest)
  {
    assert ([(k, v)] + rest)[1..] == rest;
  }

  /** An optional integer as JSON: null when absent. */
  function IntOrNull(n: Option<int>): Value
  {
    match n
    case Some(i) => Int(i)
    case None => Null
  }

  function StrOrNull(s: Option<string>): Value
  {
    match s
    case Some(t) => Str(t)
    case None => Null
  }
}
