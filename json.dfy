/**
 * A parsed JSON value, the "unknown" that the stores' decoders receive from
 * `JSON.parse`.  Numbers are kept as integers: no decoder looks at them.
 */
module Json {
  import opened Wrappers
  import opened Text

  datatype Json =
    | JNull
    | JBool(b: bool)
    | JNum(n: int)
    | JStr(s: string)
    | JArr(items: seq<Json>)
    | JObj(fields: map<string, Json>)

  /**
   * `typeof value === 'object' && value !== null`: true for objects and,
   * as in JavaScript, for arrays too.
   */
  predicate IsRecord(v: Json)
    ensures IsRecord(v) <==> !v.JNull? && !v.JBool? && !v.JNum? && !v.JStr?
  {
    v.JObj? || v.JArr?
  }

  /**
   * Property access `value.key`, with `None` standing for `undefined`.
   * Only an object has own properties with the names the decoders use; on an
   * array or a primitive those names are `undefined`.
   */
  function Get(v: Json, key: string): (r: Option<Json>)
    ensures r.Some? <==> v.JObj? && key in v.fields
    ensures r.Some? ==> r.value == v.fields[key]
  {
    match v
    case JObj(fields) => if key in fields then Some(fields[key]) else None
    case _ => None
  }

  /** The string held under `key`, when `typeof value.key === 'string'`. */
  function GetString(v: Json, key: string): (r: Option<string>)
    ensures r.Some? <==> Get(v, key).Some? && Get(v, key).value.JStr?
    ensures r.Some? ==> Get(v, key) == Some(JStr(r.value))
  {
    match Get(v, key)
    case Some(JStr(s)) => Some(s)
    case _ => None
  }

  /** The boolean held under `key`, when `typeof value.key === 'boolean'`. */
  function GetBool(v: Json, key: string): (r: Option<bool>)
    ensures r.Some? <==> Get(v, key).Some? && Get(v, key).value.JBool?
    ensures r.Some? ==> Get(v, key) == Some(JBool(r.value))
  {
    match Get(v, key)
    case Some(JBool(b)) => Some(b)
    case _ => None
  }

  /**
   * A string property with something besides whitespace in it
   * (`typeof v.key === 'string' && v.key.trim().length > 0`), returned
   * untrimmed; `None` when it is absent, not a string, or blank.
   */
  function NonBlank(v: Json, key: string): (r: Option<string>)
    ensures r.Some? <==> GetString(v, key).Some? && Trim(GetString(v, key).value) != ""
    ensures r.Some? ==> r.value == GetString(v, key).value
  {
    match GetString(v, key)
    case Some(s) => if Trim(s) != "" then Some(s) else None
    case None => None
  }
}
