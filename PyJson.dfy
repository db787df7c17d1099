/**
 * JSON values as the Python backend sees them after `json.loads` or
 * `response.json()`, the Python built-ins it applies to them (truthiness,
 * `len`, `dict.get`, the slice `v[:n]`), the outcome of a call that may raise,
 * and a mutable dictionary object for the places that update a dict in place.
 */
module PyJson {
  import opened Wrappers

  /** A decoded JSON document. Numbers are integers; an object maps its keys to values. */
  datatype Json =
    | JNull
    | JBool(b: bool)
    | JNum(n: int)
    | JStr(s: string)
    | JArr(items: seq<Json>)
    | JObj(fields: map<string, Json>)

  /** A Python call either returns a value or raises an exception. */
  datatype Outcome<+T> = Returned(value: T) | Raised

  /** `bool(v)`: None, False, 0 and empty strings, lists and dicts are false. */
  predicate Truthy(v: Json) {
    match v
    case JNull => false
    case JBool(b) => b
    case JNum(n) => n != 0
    case JStr(s) => s != []
    case JArr(xs) => xs != []
    case JObj(m) => m != map[]
  }

  /** `len(v)`, or None where Python raises TypeError (None, booleans and numbers have no length). */
  function Len(v: Json): (r: Option<nat>)
    ensures r.Some? <==> v.JStr? || v.JArr? || v.JObj?
    ensures v.JArr? ==> r == Some(|v.items|)
    ensures v.JStr? ==> r == Some(|v.s|)
    ensures v.JObj? ==> r == Some(|v.fields|)
  {
    match v
    case JStr(s) => Some(|s|)
    case JArr(xs) => Some(|xs|)
    case JObj(m) => Some(|m|)
    case _ => None
  }

  /** `d.get(key, default)`. */
  function Get(d: map<string, Json>, key: string, default: Json): Json {
    if key in d then d[key] else default
  }

  /** `v[:n]` for `n >= 0`: a prefix of a string or a list, or None where Python raises
      (a dict, None, a boolean or a number cannot be sliced). */
  function TakePrefix(v: Json, n: nat): (r: Option<Json>)
    ensures r.Some? <==> v.JStr? || v.JArr?
    ensures r.Some? ==> Len(r.value).Some? && Len(r.value).value == Min(n, Len(v).value)
    ensures v.JArr? ==> r == Some(JArr(v.items[..Min(n, |v.items|)]))
    ensures v.JStr? ==> r == Some(JStr(v.s[..Min(n, |v.s|)]))
  {
    match v
    case JStr(s) => Some(JStr(s[..Min(n, |s|)]))
    case JArr(xs) => Some(JArr(xs[..Min(n, |xs|)]))
    case _ => None
  }

  function Min(a: int, b: int): int {
    if a <= b then a else b
  }

  /** A list of Python strings as JSON values. */
  function Strings(xs: seq<string>): (r: seq<Json>)
    ensures |r| == |xs|
    ensures forall i | 0 <= i < |xs| :: r[i] == JStr(xs[i])
  {
    if xs == [] then [] else [JStr(xs[0])] + Strings(xs[1..])
  }

  /** `d.setdefault(key, default)` on the value of a dict: the key is added only when absent. */
  function SetDefault(d: map<string, Json>, key: string, default: Json): (r: map<string, Json>)
    ensures r.Keys == d.Keys + {key}
    ensures key in d ==> r == d
    ensures key !in d ==> r[key] == default
    ensures forall k | k in d :: r[k] == d[k]
  {
    if key in d then d else d[key := default]
  }

  /** A Python dict object: its entries change in place and every reference sees the change. */
  class Dict {
    var items: map<string, Json>

    constructor (items: map<string, Json>)
      ensures this.items == items
    {
      this.items := items;
    }

    /** `self.setdefault(key, default)`: returns the value now stored under `key`. */
    method SetDefaultItem(key: string, default: Json) returns (v: Json)
      modifies this
      ensures items == SetDefault(old(items), key, default)
      ensures v == items[key]
      ensures key in old(items) ==> v == old(items)[key]
    {
      if key !in items {
        items := items[key := default];
      }
      v := items[key];
    }

    /** `self[key] = value`. */
    method SetItem(key: string, value: Json)
      modifies this
      ensures items == old(items)[key := value]
    {
      items := items[key := value];
    }
  }
}
