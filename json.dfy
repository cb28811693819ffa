/**
 * JSON documents as Python holds them after `json.loads`: None, bool, int, str,
 * list and dict (a dict keeps its keys in insertion order). Floating-point
 * numbers are not modelled.
 */
module JsonValues {
  import opened Results
  import opened Dicts
  import Numerals

  datatype Json =
    | JNull
    | JBool(b: bool)
    | JInt(i: int)
    | JStr(s: string)
    | JArray(items: seq<Json>)
    | JObject(fields: Dict<string, Json>)

  /** `{"success": True}`, the value the client returns for a response without content. */
  const SuccessMarker: Json := JObject([("success", JBool(true))])

  /** Python's quoted form of a string, without escaping. */
  function Quote(s: string): string {
    "'" + s + "'"
  }

  /** The pieces joined by `", "`. */
  function Join(parts: seq<string>): string {
    if parts == [] then ""
    else if |parts| == 1 then parts[0]
    else parts[0] + ", " + Join(parts[1..])
  }

  /** Python's `repr()` of a parsed JSON value. */
  function Repr(j: Json): string {
    match j
    case JNull => "None"
    case JBool(b) => if b then "True" else "False"
    case JInt(i) => Numerals.IntToString(i)
    case JStr(s) => Quote(s)
    case JArray(items) =>
      "[" + Join(seq(|items|, k requires 0 <= k < |items| => Repr(items[k]))) + "]"
    case JObject(fields) =>
      "{" + Join(seq(|fields|, k requires 0 <= k < |fields| =>
                   Quote(fields[k].0) + ": " + Repr(fields[k].1))) + "}"
  }

  /** Python's `str()` (also what an f-string inserts): the text itself for a string, `repr()` otherwise. */
  function PyStr(j: Json): (r: string)
    ensures j.JStr? ==> r == j.s
    ensures j.JBool? ==> r == (if j.b then "True" else "False")
    ensures j.JInt? ==> r == Numerals.IntToString(j.i)
  {
    if j.JStr? then j.s else Repr(j)
  }

  /**
   * What `for x in j` visits: the items of a list, the keys of a dict, the
   * one-character strings of a str; None for a value Python cannot iterate.
   * `len(j)` is the length of the same sequence.
   */
  function Iterate(j: Json): (r: Option<seq<Json>>)
    ensures r.Some? <==> (j.JArray? || j.JObject? || j.JStr?)
    ensures j.JArray? ==> r == Some(j.items)
    ensures j.JObject? ==> r.Some? && |r.value| == |j.fields|
    ensures j.JObject? ==> forall k :: 0 <= k < |j.fields| ==> r.value[k] == JStr(j.fields[k].0)
    ensures j.JStr? ==> r.Some? && |r.value| == |j.s|
    ensures j.JStr? ==> forall k :: 0 <= k < |j.s| ==> r.value[k] == JStr([j.s[k]])
    ensures r.Some? && !j.JArray? ==> forall k :: 0 <= k < |r.value| ==> r.value[k].JStr?
  {
    match j
    case JArray(items) => Some(items)
    case JObject(fields) => Some(seq(|fields|, k requires 0 <= k < |fields| => JStr(fields[k].0)))
    case JStr(s) => Some(seq(|s|, k requires 0 <= k < |s| => JStr([s[k]])))
    case _ => None
  }
}
