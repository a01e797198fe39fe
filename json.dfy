/** The JSON-shaped Python values (`None`, `bool`, `int`, `float`, `str`,
    `list`, `dict`) that the agents and the LLM helpers pass around, with the
    handful of Python operations the source applies to them. A `dict` is kept
    as its list of entries in insertion order. */
module Json {
  import opened Wrappers
  import Text

  datatype Json =
    | Null
    | Bool(b: bool)
    | Int(i: int)
    | Float(r: real)
    | Str(s: string)
    | Arr(items: seq<Json>)
    | Obj(fields: seq<(string, Json)>)

  /** Python truthiness (`bool(x)`). */
  predicate Truthy(j: Json) {
    match j
    case Null => false
    case Bool(b) => b
    case Int(i) => i != 0
    case Float(r) => r != 0.0
    case Str(s) => s != []
    case Arr(items) => items != []
    case Obj(fields) => fields != []
  }

  /** `type(x).__name__` */
  function TypeName(j: Json): string {
    match j
    case Null => "NoneType"
    case Bool(_) => "bool"
    case Int(_) => "int"
    case Float(_) => "float"
    case Str(_) => "str"
    case Arr(_) => "list"
    case Obj(_) => "dict"
  }

  /** The message of the `AttributeError` raised for `x.attr` when `x` has no
      such attribute. */
  function NoAttribute(j: Json, attr: string): string {
    "'" + TypeName(j) + "' object has no attribute '" + attr + "'"
  }

  /** The value stored under `key` among `fields`, if any. */
  function Lookup(fields: seq<(string, Json)>, key: string): (r: Option<Json>)
    ensures fields == [] ==> r == None
  {
    if fields == [] then None
    else if fields[0].0 == key then Some(fields[0].1)
    else Lookup(fields[1..], key)
  }

  /** A key is found exactly when one of the entries carries it, and then
      with the value of its first entry. */
  lemma {:induction false} LookupFinds(fields: seq<(string, Json)>, key: string)
    ensures Lookup(fields, key).Some? <==> key in Keys(fields)
    ensures forall i :: 0 <= i < |fields| && fields[i].0 == key && key !in Keys(fields[..i]) ==>
      Lookup(fields, key) == Some(fields[i].1)
  {
    if fields != [] {
      LookupFinds(fields[1..], key);
      assert Keys(fields) == [fields[0].0] + Keys(fields[1..]);
      forall i | 0 < i < |fields| && fields[i].0 == key && key !in Keys(fields[..i])
        ensures Lookup(fields, key) == Some(fields[i].1)
      {
        assert fields[..i][0] == fields[0];
        assert fields[1..][i - 1] == fields[i];
        assert Keys(fields[..i]) == [fields[0].0] + Keys(fields[1..][..i - 1]);
      }
    }
  }

  /** Entries under other keys are passed over. */
  lemma {:induction false} LookupPast(fields: seq<(string, Json)>, n: nat, key: string)
    requires n <= |fields|
    requires forall i :: 0 <= i < n ==> fields[i].0 != key
    ensures Lookup(fields, key) == Lookup(fields[n..], key)
  {
    if n > 0 {
      LookupPast(fields[1..], n - 1, key);
      assert fields[1..][n - 1..] == fields[n..];
    }
  }

  /** `d.get(key, default)` on a dict. */
  function GetOr(fields: seq<(string, Json)>, key: string, default: Json): Json {
    var r := Lookup(fields, key);
    if r.Some? then r.value else default
  }

  /** `x.get(key, default)` on any value: only a dict has `get`. */
  function DictGet(x: Json, key: string, default: Json): (r: Result<Json, string>)
    ensures r.Success? <==> x.Obj?
    ensures x.Obj? && key !in Keys(x.fields) ==> r == Success(default)
  {
    if x.Obj? then
      LookupFinds(x.fields, key);
      Success(GetOr(x.fields, key, default))
    else Failure(NoAttribute(x, "get"))
  }

  /** `d.get(key)`, which is `None` for a missing key. */
  function Get(fields: seq<(string, Json)>, key: string): Json {
    GetOr(fields, key, Null)
  }

  predicate HasKey(fields: seq<(string, Json)>, key: string) {
    Lookup(fields, key).Some?
  }

  function Keys(fields: seq<(string, Json)>): (r: seq<string>)
    ensures |r| == |fields| && forall i :: 0 <= i < |r| ==> r[i] == fields[i].0
  {
    seq(|fields|, i requires 0 <= i < |fields| => fields[i].0)
  }

  /** `d[key] = v`: an existing key keeps its place and takes the new value; a
      new key goes at the end. */
  function Put(fields: seq<(string, Json)>, key: string, v: Json): (r: seq<(string, Json)>)
    ensures |r| == |fields| || |r| == |fields| + 1
  {
    if fields == [] then [(key, v)]
    else if fields[0].0 == key then [(key, v)] + fields[1..]
    else [fields[0]] + Put(fields[1..], key, v)
  }

  /** After `d[key] = v`, `key` reads `v` and every other key reads what it
      read before. */
  lemma {:induction false} LookupPut(fields: seq<(string, Json)>, key: string, v: Json, k: string)
    ensures Lookup(Put(fields, key, v), k) == if k == key then Some(v) else Lookup(fields, k)
  {
    if fields != [] && fields[0].0 != key {
      LookupPut(fields[1..], key, v, k);
    }
  }

  /** `d[key] = v` keeps the order of the keys, adding `key` at the end when
      it is new. */
  lemma {:induction false} KeysPut(fields: seq<(string, Json)>, key: string, v: Json)
    ensures key in Keys(fields) ==> Keys(Put(fields, key, v)) == Keys(fields)
    ensures key !in Keys(fields) ==> Keys(Put(fields, key, v)) == Keys(fields) + [key]
  {
    if fields != [] {
      assert Keys(fields) == [fields[0].0] + Keys(fields[1..]);
      if fields[0].0 != key {
        KeysPut(fields[1..], key, v);
        var rest := Put(fields[1..], key, v);
        assert Keys([fields[0]] + rest) == [fields[0].0] + Keys(rest);
      } else {
        assert Keys([(key, v)] + fields[1..]) == [key] + Keys(fields[1..]);
      }
    }
  }

  /** `str(x)` for the values whose text does not depend on float formatting
      or on `repr`; floats and containers go through the two collaborators. */
  function Display(j: Json, floatStr: real -> string, repr: Json -> string): string {
    match j
    case Null => "None"
    case Bool(b) => if b then "True" else "False"
    case Int(i) => if i < 0 then "-" + Text.NatToString(-i) else Text.NatToString(i)
    case Float(r) => floatStr(r)
    case Str(s) => s
    case _ => repr(j)
  }

  /** The result of `isinstance(x, int)` paired with the integer; `bool` is a
      subclass of `int` in Python, so `True` reads as 1 and `False` as 0. */
  function AsInt(j: Json): (r: Option<int>)
    ensures j.Int? ==> r == Some(j.i)
    ensures r.Some? <==> j.Int? || j.Bool?
  {
    match j
    case Int(i) => Some(i)
    case Bool(b) => Some(if b then 1 else 0)
    case _ => None
  }

  /** `float(x)`; a string goes through the uninterpreted `parseFloat`, and any
      other type raises. */
  function ToFloat(j: Json, parseFloat: string -> Option<real>): Option<real> {
    match j
    case Bool(b) => Some(if b then 1.0 else 0.0)
    case Int(i) => Some(i as real)
    case Float(r) => Some(r)
    case Str(s) => parseFloat(s)
    case _ => None
  }

  /** What `for x in value` visits: a list's items, a dict's keys or a
      string's characters; other values are not iterable. */
  function Iterate(j: Json): (r: Result<seq<Json>, string>)
    ensures j.Arr? ==> r == Success(j.items)
    ensures j.Null? || j.Bool? || j.Int? || j.Float? ==> r.Failure?
  {
    match j
    case Arr(items) => Success(items)
    case Obj(fields) => Success(seq(|fields|, i requires 0 <= i < |fields| => Str(fields[i].0)))
    case Str(s) => Success(seq(|s|, i requires 0 <= i < |s| => Str([s[i]])))
    case _ => Failure("'" + TypeName(j) + "' object is not iterable")
  }
}
