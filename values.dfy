/**
 * The Python values a KServe request body decodes into, and that
 * `convert_lists_to_tuples` walks: scalars, lists, tuples and dicts.
 * A dict is kept as its sequence of entries so that insertion order,
 * which Python dicts preserve, is part of the value.
 */
module Values {
  import opened Wrappers

  datatype Scalar =
    | Str(s: string)
    | Int(i: int)
    | Float(r: real)
    | Bool(b: bool)
    | Null

  datatype Value =
    | Scalar(scalar: Scalar)
    | List(items: seq<Value>)
    | Tuple(items: seq<Value>)
    | Dict(entries: seq<Entry>)

  datatype Entry = Entry(key: string, val: Value)

  /** The keys of a dict, in insertion order. */
  function Keys(entries: seq<Entry>): (ks: seq<string>)
    ensures |ks| == |entries|
    ensures forall i :: 0 <= i < |entries| ==> ks[i] == entries[i].key
  {
    if entries == [] then [] else [entries[0].key] + Keys(entries[1..])
  }

  /** A Python dict never holds the same key twice. */
  predicate DistinctKeys(entries: seq<Entry>)
  {
    forall i, j :: 0 <= i < j < |entries| ==> entries[i].key != entries[j].key
  }

  /** Every dict inside the value, at any depth, has distinct keys. */
  predicate WellFormed(v: Value)
  {
    match v
    case Scalar(_) => true
    case List(items) => forall i :: 0 <= i < |items| ==> WellFormed(items[i])
    case Tuple(items) => forall i :: 0 <= i < |items| ==> WellFormed(items[i])
    case Dict(entries) =>
      && DistinctKeys(entries)
      && forall i :: 0 <= i < |entries| ==> WellFormed(entries[i].val)
  }

  /** `d[key]`: the value stored under `key`, or None where Python raises KeyError. */
  function Lookup(entries: seq<Entry>, key: string): (r: Option<Value>)
    ensures r.None? <==> key !in Keys(entries)
    ensures r.Some? ==> exists i :: 0 <= i < |entries| && entries[i].key == key && entries[i].val == r.value
  {
    if entries == [] then None
    else if entries[0].key == key then Some(entries[0].val)
    else Lookup(entries[1..], key)
  }

  /** Lookup on a value that may not be a dict at all. */
  function Get(v: Value, key: string): Option<Value>
  {
    if v.Dict? then Lookup(v.entries, key) else None
  }

  /** No list anywhere in the value, at any depth. */
  predicate NoList(v: Value)
  {
    match v
    case Scalar(_) => true
    case List(_) => false
    case Tuple(items) => forall i :: 0 <= i < |items| ==> NoList(items[i])
    case Dict(entries) => forall i :: 0 <= i < |entries| ==> NoList(entries[i].val)
  }

  /** No tuple anywhere in the value: the shape a JSON body decodes into. */
  predicate TupleFree(v: Value)
  {
    match v
    case Scalar(_) => true
    case List(items) => forall i :: 0 <= i < |items| ==> TupleFree(items[i])
    case Tuple(_) => false
    case Dict(entries) => forall i :: 0 <= i < |entries| ==> TupleFree(entries[i].val)
  }

  /**
   * Every tuple reachable through dicts and lists is free of lists. These are
   * exactly the values whose normal form holds no list (Normalize.NoListIff).
   */
  predicate Normalisable(v: Value)
  {
    match v
    case Scalar(_) => true
    case List(items) => forall i :: 0 <= i < |items| ==> Normalisable(items[i])
    case Tuple(_) => NoList(v)
    case Dict(entries) => forall i :: 0 <= i < |entries| ==> Normalisable(entries[i].val)
  }
}
