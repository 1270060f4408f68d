/**
 * The values the plugin reads from the editor's settings: JSON-shaped data
 * as the Python host hands it over (None, booleans, numbers, strings,
 * lists and dicts), together with the three pieces of Python semantics the
 * listener relies on: truthiness (`x or []`, `if scope_key:`), `dict.get`
 * and extending a list with `+=`.
 */
module Values {
  import opened Wrappers
  import opened Errors

  /** A Python dict keeps its insertion order, so it is an association list here. */
  datatype Value =
    | Null
    | Bool(b: bool)
    | Num(n: real)
    | Str(s: string)
    | List(items: seq<Value>)
    | Dict(fields: seq<(string, Value)>)

  /** Python's truth test: None, False, zero and empty containers are false. */
  predicate Truthy(v: Value) {
    match v
    case Null => false
    case Bool(b) => b
    case Num(n) => n != 0.0
    case Str(s) => s != ""
    case List(items) => items != []
    case Dict(fields) => fields != []
  }

  /** True when `key` is one of the keys of `fields`. */
  predicate HasKey(fields: seq<(string, Value)>, key: string) {
    exists i :: 0 <= i < |fields| && fields[i].0 == key
  }

  /** `d[key]` as a lookup that may miss: the value stored under the first occurrence of `key`. */
  function Lookup(fields: seq<(string, Value)>, key: string): (r: Option<Value>)
    ensures r.Some? <==> HasKey(fields, key)
    ensures r.Some? ==> exists i :: 0 <= i < |fields| && fields[i] == (key, r.value) &&
                                    forall j :: 0 <= j < i ==> fields[j].0 != key
  {
    if fields == [] then None
    else if fields[0].0 == key then Some(fields[0].1)
    else
      var rest := Lookup(fields[1..], key);
      assert forall i :: 0 < i < |fields| ==> fields[i] == fields[1..][i - 1];
      assert HasKey(fields[1..], key) ==> HasKey(fields, key);
      rest
  }

  /** `d.get(key, default)`. */
  function Get(fields: seq<(string, Value)>, key: string, default: Value): (r: Value)
    ensures !HasKey(fields, key) ==> r == default
    ensures HasKey(fields, key) ==> Some(r) == Lookup(fields, key)
  {
    Lookup(fields, key).GetOr(default)
  }

  /**
   * The elements that `cmds += (v or [])` appends to `cmds`: nothing for a
   * false value; the items of a list; the one-character strings of a string;
   * the keys of a dict in insertion order; a TypeError for a true number or
   * boolean.
   */
  function Contribution(v: Value): (r: Result<seq<Value>, Error>)
    ensures !Truthy(v) ==> r == Ok([])
    ensures v.List? ==> r == Ok(v.items)
    ensures r.Err? <==> Truthy(v) && (v.Bool? || v.Num?)
    ensures r.Err? ==> r.error == NotIterable
    ensures v.Str? && r.Ok? ==> |r.value| == |v.s| && forall i :: 0 <= i < |v.s| ==> r.value[i] == Str([v.s[i]])
    ensures v.Dict? && r.Ok? ==> |r.value| == |v.fields| && forall i :: 0 <= i < |v.fields| ==> r.value[i] == Str(v.fields[i].0)
  {
    if !Truthy(v) then Ok([])
    else
      match v
      case List(items) => Ok(items)
      case Str(s) => Ok(Characters(s))
      case Dict(fields) => Ok(Keys(fields))
      case _ => Err(NotIterable)
  }

  /** Iterating a string: its characters, each as a one-character string. */
  function Characters(s: string): (r: seq<Value>)
    ensures |r| == |s|
    ensures forall i :: 0 <= i < |s| ==> r[i] == Str([s[i]])
  {
    if s == [] then [] else [Str([s[0]])] + Characters(s[1..])
  }

  /** Iterating a dict: its keys, in insertion order. */
  function Keys(fields: seq<(string, Value)>): (r: seq<Value>)
    ensures |r| == |fields|
    ensures forall i :: 0 <= i < |fields| ==> r[i] == Str(fields[i].0)
  {
    if fields == [] then [] else [Str(fields[0].0)] + Keys(fields[1..])
  }
}
