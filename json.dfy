/**
 * A decoded JSON value as Python holds it after `json.load`: `None`, `bool`,
 * `int`, `str`, `list` and `dict` (whose keys keep their insertion order).
 */
module Json {
  import opened Wrappers

  datatype Json =
    | JNull
    | JBool(b: bool)
    | JNum(n: int)
    | JStr(s: string)
    | JArr(items: seq<Json>)
    | JObj(members: seq<(string, Json)>)

  const EmptyObject: Json := JObj([])

  /** A Python dict never holds the same key twice. */
  predicate DistinctKeys(ms: seq<(string, Json)>) {
    forall i, j :: 0 <= i < j < |ms| ==> ms[i].0 != ms[j].0
  }

  /** `d.get(key)` on a dict: the value stored under `key`, or `None`. */
  function Lookup(ms: seq<(string, Json)>, key: string): (r: Option<Json>)
    ensures r.None? <==> forall i :: 0 <= i < |ms| ==> ms[i].0 != key
    ensures r.Some? ==> exists i :: 0 <= i < |ms| && ms[i] == (key, r.value)
  {
    if ms == [] then None
    else if ms[0].0 == key then Some(ms[0].1)
    else
      var r := Lookup(ms[1..], key);
      assert forall i :: 1 <= i < |ms| ==> ms[i] == ms[1..][i - 1];
      r
  }

  /** In a dict the stored value is the one listed under that key. */
  lemma LookupDistinct(ms: seq<(string, Json)>, i: nat)
    requires DistinctKeys(ms) && i < |ms|
    ensures Lookup(ms, ms[i].0) == Some(ms[i].1)
  {
    if i > 0 {
      LookupDistinct(ms[1..], i - 1);
    }
  }

  /**
   * `value[key]` inside a `try` that catches `KeyError` and `TypeError`:
   * `None` when `value` is not a dict or lacks `key`.
   */
  function Index(value: Json, key: string): Option<Json> {
    if value.JObj? then Lookup(value.members, key) else None
  }

  /** Python's truth value of a decoded JSON value. */
  predicate Truthy(value: Json) {
    match value
    case JNull => false
    case JBool(b) => b
    case JNum(n) => n != 0
    case JStr(s) => s != []
    case JArr(items) => items != []
    case JObj(members) => members != []
  }

  /** Python's `str(value)`: a string is itself, anything else is rendered by `show`. */
  function PyStr(value: Json, show: Json -> string): string {
    if value.JStr? then value.s else show(value)
  }
}
