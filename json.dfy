/**
 * JSON-like values: what `json.loads` produces and what the modelled code
 * stores in dictionaries. Objects keep insertion order (see Dicts).
 */
module JsonValues {
  import opened Wrappers
  import opened Dicts
  import opened Text

  datatype Json =
    | JNull
    | JBool(b: bool)
    | JNum(n: real)
    | JStr(s: string)
    | JArr(items: seq<Json>)
    | JObj(fields: Dict<string, Json>)

  /** Python truthiness of the value (`bool(x)`). */
  predicate Truthy(j: Json) {
    match j
    case JNull => false
    case JBool(b) => b
    case JNum(n) => n != 0.0
    case JStr(s) => s != ""
    case JArr(items) => items != []
    case JObj(fields) => fields != []
  }

  /** Whether Python can hash the value: lists and dicts cannot be set members or dict keys. */
  predicate Hashable(j: Json) {
    !j.JArr? && !j.JObj?
  }

  /** `j[key]` on an object: KeyError for a missing key, TypeError on a non-object. */
  function Index(j: Json, key: string): (r: Result<Json>)
    ensures r.Ok? <==> j.JObj? && HasKey(j.fields, key)
    ensures r.Ok? ==> Get(j.fields, key) == Some(r.value)
  {
    match j
    case JObj(fields) =>
      (match Get(fields, key)
       case Some(v) => Ok(v)
       case None => Err(KeyError))
    case _ => Err(TypeError)
  }

  /** `j.get(key, default)` on an object: AttributeError on a non-object. */
  function GetOrDefault(j: Json, key: string, default: Json): (r: Result<Json>)
    ensures r.Ok? <==> j.JObj?
    ensures j.JObj? && !HasKey(j.fields, key) ==> r == Ok(default)
  {
    match j
    case JObj(fields) => Ok(GetOr(fields, key, default))
    case _ => Err(AttributeError)
  }

  /** `key in j`: a key of an object, an item of a list, a substring of a string; TypeError otherwise. */
  function HasMember(j: Json, key: string): (r: Result<bool>)
    ensures j.JObj? ==> r == Ok(HasKey(j.fields, key))
    ensures r.Err? <==> !(j.JObj? || j.JArr? || j.JStr?)
  {
    match j
    case JObj(fields) => Ok(HasKey(fields, key))
    case JArr(items) => Ok(JStr(key) in items)
    case JStr(s) => Ok(Contains(s, key))
    case _ => Err(TypeError)
  }

  /** `int(x)` of a JSON value: floats truncate toward zero, strings are parsed, booleans are 0 and 1. */
  function PyInt(j: Json): (r: Result<int>)
    ensures j.JNum? && j.n >= 0.0 ==> r == Ok(j.n.Floor)
    ensures j.JNum? && j.n < 0.0 ==> r == Ok(-((-j.n).Floor))
    ensures r.Err? ==> r.error in {TypeError, ValueError}
  {
    match j
    case JNum(n) => Ok(if n >= 0.0 then n.Floor else -((-n).Floor))
    case JStr(s) => ParseInt(s)
    case JBool(b) => Ok(if b then 1 else 0)
    case _ => Err(TypeError)
  }

  /** What `for x in value` iterates over: a list's items, a dict's keys, a string's characters. */
  function Iterated(j: Json): (r: Result<seq<Json>>)
    ensures r.Err? <==> !(j.JArr? || j.JObj? || j.JStr?)
    ensures j.JArr? ==> r == Ok(j.items)
  {
    match j
    case JArr(items) => Ok(items)
    case JObj(fields) => Ok(seq(|fields|, i requires 0 <= i < |fields| => JStr(fields[i].0)))
    case JStr(s) => Ok(seq(|s|, i requires 0 <= i < |s| => JStr([s[i]])))
    case _ => Err(TypeError)
  }
}
