/**
 * Python values as the server sees them after JSON decoding, the JSON tree
 * that travels on the wire, and the few built-in behaviours (iteration,
 * hashing, truthiness, `str`/`repr`) the modelled code depends on.
 */
module Values {
  import opened Wrappers
  import opened Text

  /** A decoded server-side value. */
  datatype Value =
    | Nil                                   // None
    | Bool(b: bool)
    | Int(i: int)
    | Str(s: string)
    | List(items: seq<Value>)
    | Tuple(items: seq<Value>)
    | Dict(entries: seq<(string, Value)>)   // a dict with string keys, in insertion order
    | Obj(id: nat)                          // a live object: module, class, instance, function
    | Blob(payload: string)                 // the object unpickled from this base64 text
    | Cmd(cmd: Command)                     // a Create, Call or Get instance

  datatype Kind = CreateKind | CallKind | GetKind

  /** A command instance: its class and its instance `__dict__` (only the keywords it was given). */
  datatype Command = Command(kind: Kind, fields: map<string, Value>)

  /** The exceptions the modelled code can raise. */
  datatype Error =
    | AttributeError(owner: string, name: string)
    | AttributeNotWritable(owner: string, name: string)   // AttributeError: attribute 'name' of 'owner' objects is not writable
    | TypeError(reason: string)
    | ValueError(reason: string)
    | KeyError(key: Value)
    | ModuleNotFoundError(moduleName: string)
    | PicklingError(reason: string)
    | Exception(raised: Value)               // whatever a called constructor or method raised

  /** A JSON document as parsed from the wire (numbers other than integers are not modelled). */
  datatype Json =
    | JNull
    | JBool(b: bool)
    | JInt(i: int)
    | JStr(s: string)
    | JArray(items: seq<Json>)
    | JObject(members: seq<(string, Json)>)

  function Keys(entries: seq<(string, Value)>): (r: seq<string>)
    ensures |r| == |entries| && forall k {:trigger r[k]} | 0 <= k < |entries| :: r[k] == entries[k].0
  {
    if entries == [] then [] else [entries[0].0] + Keys(entries[1..])
  }

  predicate DistinctKeys<T>(entries: seq<(string, T)>) {
    forall a, b | 0 <= a < b < |entries| :: entries[a].0 != entries[b].0
  }

  /** `d[key]` on a dict given by its entries: the first binding of `key`. */
  function Lookup(entries: seq<(string, Value)>, key: string): (r: Option<Value>)
    ensures r.Some? <==> key in Keys(entries)
  {
    if entries == [] then None
    else if entries[0].0 == key then Some(entries[0].1)
    else Lookup(entries[1..], key)
  }

  /** The value `Lookup` finds is the one bound at the first occurrence of the key. */
  lemma {:induction false} LookupFirstBinding(entries: seq<(string, Value)>, key: string, k: nat)
    requires k < |entries| && entries[k].0 == key && key !in Keys(entries[..k])
    ensures Lookup(entries, key) == Some(entries[k].1)
  {
    if k > 0 {
      assert entries[0].0 == Keys(entries[..k])[0];
      assert entries[..k][1..] == entries[1..][..k - 1];
      LookupFirstBinding(entries[1..], key, k - 1);
    }
  }

  /** `d[key] = value`: an existing key keeps its position, a new key goes last. */
  function Assoc(entries: seq<(string, Value)>, key: string, value: Value): (r: seq<(string, Value)>)
    ensures Keys(r) == if key in Keys(entries) then Keys(entries) else Keys(entries) + [key]
  {
    if entries == [] then [(key, value)]
    else if entries[0].0 == key then
      var r := [(key, value)] + entries[1..];
      assert r[1..] == entries[1..];
      r
    else
      var rest := Assoc(entries[1..], key, value);
      var r := [entries[0]] + rest;
      assert r[1..] == rest;
      r
  }

  /** After `d[key] = value`, `d[key]` is `value` and every other key reads as before. */
  lemma {:induction false} AssocLookup(entries: seq<(string, Value)>, key: string, value: Value, other: string)
    ensures Lookup(Assoc(entries, key, value), key) == Some(value)
    ensures other != key ==> Lookup(Assoc(entries, key, value), other) == Lookup(entries, other)
  {
    if entries != [] && entries[0].0 != key {
      AssocLookup(entries[1..], key, value, other);
    }
  }

  /** Distinct keys stay distinct under assignment. */
  lemma AssocDistinct(entries: seq<(string, Value)>, key: string, value: Value)
    requires DistinctKeys(entries)
    ensures DistinctKeys(Assoc(entries, key, value))
  {
    var r := Assoc(entries, key, value);
    forall a, b | 0 <= a < b < |r| ensures r[a].0 != r[b].0 {
      assert Keys(r)[a] == r[a].0 && Keys(r)[b] == r[b].0;
      if key !in Keys(entries) && b == |r| - 1 {
        assert Keys(entries)[a] == r[a].0;
      } else {
        assert Keys(entries)[a] == r[a].0 && Keys(entries)[b] == r[b].0;
      }
    }
  }

  /** `dict(pairs)`: a later duplicate key overwrites the value of the earlier one. */
  function DictFromPairs(pairs: seq<(string, Value)>): (r: seq<(string, Value)>)
    ensures DistinctKeys(r)
  {
    if pairs == [] then []
    else
      var last := pairs[|pairs| - 1];
      AssocDistinct(DictFromPairs(pairs[..|pairs| - 1]), last.0, last.1);
      Assoc(DictFromPairs(pairs[..|pairs| - 1]), last.0, last.1)
  }

  /** With distinct keys, building a dict keeps the pairs exactly. */
  lemma {:induction false} DictFromDistinctPairs(pairs: seq<(string, Value)>)
    requires DistinctKeys(pairs)
    ensures DictFromPairs(pairs) == pairs
  {
    if pairs != [] {
      var init := pairs[..|pairs| - 1];
      var last := pairs[|pairs| - 1];
      LastKeyFresh(pairs);
      DictFromDistinctPairs(init);
      AssocFresh(init, last.0, last.1);
      assert init + [last] == pairs;
    }
  }

  lemma LastKeyFresh(pairs: seq<(string, Value)>)
    requires pairs != [] && DistinctKeys(pairs)
    ensures DistinctKeys(pairs[..|pairs| - 1])
    ensures pairs[|pairs| - 1].0 !in Keys(pairs[..|pairs| - 1])
  {
    var init := pairs[..|pairs| - 1];
    forall k | 0 <= k < |init| ensures Keys(init)[k] != pairs[|pairs| - 1].0 {
      assert init[k] == pairs[k];
    }
  }

  /** Assigning a new key appends it. */
  lemma {:induction false} AssocFresh(entries: seq<(string, Value)>, key: string, value: Value)
    requires key !in Keys(entries)
    ensures Assoc(entries, key, value) == entries + [(key, value)]
  {
    if entries != [] {
      KeysTail(entries);
      AssocFresh(entries[1..], key, value);
      assert entries + [(key, value)] == [entries[0]] + (entries[1..] + [(key, value)]);
    }
  }

  lemma KeysTail(entries: seq<(string, Value)>)
    requires entries != []
    ensures Keys(entries) == [entries[0].0] + Keys(entries[1..])
  {
  }

  /** The name Python reports for the type of a value. */
  function TypeName(v: Value): string {
    match v
    case Nil => "NoneType"
    case Bool(_) => "bool"
    case Int(_) => "int"
    case Str(_) => "str"
    case List(_) => "list"
    case Tuple(_) => "tuple"
    case Dict(_) => "dict"
    case Obj(_) => "object"
    case Blob(_) => "numpy.ndarray"
    case Cmd(c) => match c.kind case CreateKind => "Create" case CallKind => "Call" case GetKind => "Get"
  }

  /** `iter(v)` followed by `list(...)`: strings give their characters, dicts their keys. */
  function Iterate(v: Value): (r: Result<seq<Value>, Error>)
    ensures (v.List? || v.Tuple?) ==> r == Ok(v.items)
    ensures r.Ok? <==> (v.List? || v.Tuple? || v.Str? || v.Dict?)
  {
    match v
    case List(items) => Ok(items)
    case Tuple(items) => Ok(items)
    case Str(s) => Ok(seq(|s|, k requires 0 <= k < |s| => Str([s[k]])))
    case Dict(entries) => Ok(seq(|entries|, k requires 0 <= k < |entries| => Str(entries[k].0)))
    case _ => Err(TypeError("'" + TypeName(v) + "' object is not iterable"))
  }

  /** `a, b = v`: iteration must give exactly two items. */
  function Unpack2(v: Value): (r: Result<(Value, Value), Error>)
    ensures (v.List? || v.Tuple?) && |v.items| == 2 ==> r == Ok((v.items[0], v.items[1]))
    ensures r.Ok? ==> Iterate(v).Ok? && Iterate(v).value == [r.value.0, r.value.1]
  {
    match Iterate(v)
    case Err(e) => Err(e)
    case Ok(items) =>
      if |items| == 2 then Ok((items[0], items[1]))
      else if |items| < 2 then Err(ValueError("not enough values to unpack"))
      else Err(ValueError("too many values to unpack"))
  }

  /** Whether `hash(v)` succeeds: lists, dicts and arrays are unhashable. */
  predicate Hashable(v: Value) {
    match v
    case List(_) => false
    case Dict(_) => false
    case Blob(_) => false
    case Tuple(items) => forall k | 0 <= k < |items| :: Hashable(items[k])
    case _ => true
  }

  /** `bool(v)`. */
  predicate Truthy(v: Value) {
    match v
    case Nil => false
    case Bool(b) => b
    case Int(i) => i != 0
    case Str(s) => s != ""
    case List(items) => items != []
    case Tuple(items) => items != []
    case Dict(entries) => entries != []
    case _ => true
  }

  /**
   * `repr(v)`. Live objects, arrays and command instances print as their
   * default `repr`, which shows a memory address; `addressText` supplies that text.
   */
  function Repr(v: Value, addressText: Value -> string): string {
    match v
    case Nil => "None"
    case Bool(b) => if b then "True" else "False"
    case Int(i) => IntToString(i)
    case Str(s) => "'" + s + "'"
    case List(items) => "[" + Join(seq(|items|, k requires 0 <= k < |items| => Repr(items[k], addressText)), ", ") + "]"
    case Tuple(items) =>
      if |items| == 1 then "(" + Repr(items[0], addressText) + ",)"
      else "(" + Join(seq(|items|, k requires 0 <= k < |items| => Repr(items[k], addressText)), ", ") + ")"
    case Dict(entries) =>
      "{" + Join(seq(|entries|, k requires 0 <= k < |entries| =>
                   "'" + entries[k].0 + "': " + Repr(entries[k].1, addressText)), ", ") + "}"
    case _ => addressText(v)
  }

  /** `str(v)`: a string is its own text, everything else prints as its `repr`. */
  function Show(v: Value, addressText: Value -> string): string {
    if v.Str? then v.s else Repr(v, addressText)
  }
}
