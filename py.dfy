/** Python values and the few built-in operations on them that the search core relies on. */
module Py {

  /** A Python value as the core handles it: a JSON-shaped payload, a keyword argument, a dict field.
      Python's `int` and `float` are both `JNum`. */
  datatype Json =
    | JNull
    | JBool(b: bool)
    | JNum(n: real)
    | JStr(s: string)
    | JList(elems: seq<Json>)
    | JObj(fields: map<string, Json>)

  /** The result of a Python call that may raise. Exception types are not told apart:
      every handler in the core catches `Exception`. */
  datatype Outcome<+T> = Ok(value: T) | Raised

  datatype Option<+T> = None | Some(value: T)

  /** Keyword arguments, as passed with `**kwargs`. */
  type Kwargs = map<string, Json>

  /** A Python dict from strings to strings; the sequence keeps insertion order. */
  type OrderedDict = seq<(string, string)>

  /** `bool(j)`. */
  predicate Truthy(j: Json)
  {
    match j
    case JNull => false
    case JBool(b) => b
    case JNum(n) => n != 0.0
    case JStr(s) => s != ""
    case JList(xs) => xs != []
    case JObj(m) => m != map[]
  }

  /** `m.get(key, default)` on a dict. */
  function GetOr(m: map<string, Json>, key: string, default: Json): Json
  {
    if key in m then m[key] else default
  }

  /** `r.get(key, default)`: only a dict has `get`; on anything else the call raises AttributeError. */
  function Get(r: Json, key: string, default: Json): Outcome<Json>
  {
    if r.JObj? then Ok(GetOr(r.fields, key, default)) else Raised
  }

  /** `r[key]` with a string key: KeyError on a dict without the key, TypeError on every other value. */
  function Subscript(r: Json, key: string): Outcome<Json>
  {
    if r.JObj? && key in r.fields then Ok(r.fields[key]) else Raised
  }

  /** `j[:n]`: strings and lists slice; None, numbers, booleans and dicts raise. */
  function Prefix(j: Json, n: nat): Outcome<Json>
  {
    match j
    case JStr(s) => Ok(JStr(if |s| <= n then s else s[..n]))
    case JList(xs) => Ok(JList(if |xs| <= n then xs else xs[..n]))
    case _ => Raised
  }

  /** `float(j)` for numbers and booleans; None, lists and dicts raise TypeError.
      A string argument is treated as raising (numeric-string parsing is not modelled). */
  function Float(j: Json): Outcome<real>
  {
    match j
    case JNum(n) => Ok(n)
    case JBool(b) => Ok(if b then 1.0 else 0.0)
    case _ => Raised
  }

  /** `xs[i]` on a list with Python's negative indices: `xs[-1]` is the last element,
      and an index outside `-|xs| .. |xs|-1` raises IndexError. */
  function At(xs: seq<Json>, i: int): Outcome<Json>
  {
    if 0 <= i < |xs| then Ok(xs[i])
    else if -|xs| <= i < 0 then Ok(xs[|xs| + i])
    else Raised
  }

  /** The set of keys of a dict. */
  function Keys(d: OrderedDict): set<string>
  {
    if d == [] then {} else {d[0].0} + Keys(d[1..])
  }

  /** `d[k] = v`: an existing key keeps its position and takes the new value, a new key goes last. */
  function Assign(d: OrderedDict, k: string, v: string): (r: OrderedDict)
    ensures Keys(r) == Keys(d) + {k}
  {
    if d == [] then [(k, v)]
    else if d[0].0 == k then
      assert ([(k, v)] + d[1..])[1..] == d[1..];
      [(k, v)] + d[1..]
    else
      var rest := Assign(d[1..], k, v);
      assert ([d[0]] + rest)[1..] == rest;
      [d[0]] + rest
  }

  /** `d.update(other)`: the pairs of `other` assigned one after the other. */
  function Update(d: OrderedDict, other: OrderedDict): (r: OrderedDict)
    ensures Keys(r) == Keys(d) + Keys(other)
    decreases |other|
  {
    if other == [] then d
    else
      Update(Assign(d, other[0].0, other[0].1), other[1..])
  }

  /** `d.get(k)` on a dict built by `Assign` and `Update`: the value of the first pair for `k`,
      which is the only one such a dict holds. */
  function Lookup(d: OrderedDict, k: string): (r: Option<string>)
    ensures r.Some? <==> k in Keys(d)
  {
    if d == [] then None else if d[0].0 == k then Some(d[0].1) else Lookup(d[1..], k)
  }

  /** The value `dict(pairs)` holds for `k`: the last pair for `k` wins. */
  function LastLookup(d: OrderedDict, k: string): (r: Option<string>)
    ensures r.Some? <==> k in Keys(d)
  {
    if d == [] then None
    else if k in Keys(d[1..]) then LastLookup(d[1..], k)
    else if d[0].0 == k then Some(d[0].1)
    else None
  }

  /** After `d[k] = v`, `k` maps to `v` and every other key keeps its value. */
  lemma {:induction false} AssignLookup(d: OrderedDict, k: string, v: string, key: string)
    ensures Lookup(Assign(d, k, v), key) == if key == k then Some(v) else Lookup(d, key)
  {
    if d != [] && d[0].0 != k {
      AssignLookup(d[1..], k, v, key);
      assert ([d[0]] + Assign(d[1..], k, v))[1..] == Assign(d[1..], k, v);
    } else if d != [] {
      assert ([(k, v)] + d[1..])[1..] == d[1..];
    }
  }

  /** After `d.update(other)`, a key of `other` maps to the value `other` gives it, and every
      other key keeps its value in `d`. */
  lemma {:induction false} UpdateLookup(d: OrderedDict, other: OrderedDict, key: string)
    ensures Lookup(Update(d, other), key) == if key in Keys(other) then LastLookup(other, key) else Lookup(d, key)
    decreases |other|
  {
    if other != [] {
      var d' := Assign(d, other[0].0, other[0].1);
      UpdateLookup(d', other[1..], key);
      AssignLookup(d, other[0].0, other[0].1, key);
    }
  }
}
