/**
 * Decoded JSON values as the command handlers and driver helpers see them.
 * Numbers are integral; JavaScript `undefined` (an absent key) is `None`.
 */
module Json {

  import opened Wrappers
  import opened Text

  datatype Json =
    | JNull
    | JBool(b: bool)
    | JNum(n: int)
    | JStr(s: string)
    | JArr(items: seq<Json>)
    | JObj(fields: map<string, Json>)

  type Object = map<string, Json>

  /** The value under `key`, `None` when the key is absent. */
  function Get(obj: Object, key: string): (r: Option<Json>)
    ensures r.Some? <==> key in obj
    ensures r.Some? ==> r.value == obj[key]
  {
    if key in obj then Some(obj[key]) else None
  }

  const JSON_EXCEPTION := "JSONException"

  /** org.json `getString`: the string under `key`; an absent key or a non-string value throws. */
  function GetString(obj: Object, key: string): (r: Result<string, string>)
    ensures r.Ok? <==> key in obj && obj[key].JStr?
    ensures r.Ok? ==> r.value == obj[key].s
    ensures r.Err? ==> r.error == JSON_EXCEPTION
  {
    if key in obj && obj[key].JStr? then Ok(obj[key].s) else Err(JSON_EXCEPTION)
  }

  /** org.json `getJSONObject`: the object under `key`; anything else throws. */
  function GetObject(obj: Object, key: string): (r: Result<Object, string>)
    ensures r.Ok? <==> key in obj && obj[key].JObj?
    ensures r.Ok? ==> r.value == obj[key].fields
    ensures r.Err? ==> r.error == JSON_EXCEPTION
  {
    if key in obj && obj[key].JObj? then Ok(obj[key].fields) else Err(JSON_EXCEPTION)
  }

  /** `String(v)` of a present value. */
  function ValueString(v: Json): string
    decreases v, 1
  {
    match v
    case JNull => "null"
    case JBool(b) => if b then "true" else "false"
    case JNum(n) => IntToDecimal(n)
    case JStr(s) => s
    case JArr(items) => ArrayString(items)
    case JObj(_) => "[object Object]"
  }

  /** `Array.prototype.join(',')`: null elements print as nothing. */
  function ArrayString(items: seq<Json>): string
    decreases items, 0
  {
    if items == [] then []
    else
      (if items[0].JNull? then [] else ValueString(items[0]))
      + (if |items| == 1 then [] else "," + ArrayString(items[1..]))
  }

  /** `String(v)`, and a template literal `${v}`: an absent value is "undefined". */
  function JsString(v: Option<Json>): string {
    if v.None? then "undefined" else ValueString(v.value)
  }

  /** JavaScript truthiness: false, 0, "" and null are falsy. */
  predicate Truthy(v: Json) {
    match v
    case JNull => false
    case JBool(b) => b
    case JNum(n) => n != 0
    case JStr(s) => s != []
    case _ => true
  }

  /** lodash `baseToString` of a present value: array elements, null included, are stringified the same way. */
  function LodashValueString(v: Json): string
    decreases v, 1
  {
    match v
    case JArr(items) => LodashArrayString(items)
    case _ => ValueString(v)
  }

  function LodashArrayString(items: seq<Json>): string
    decreases items, 0
  {
    if items == [] then []
    else LodashValueString(items[0]) + (if |items| == 1 then [] else "," + LodashArrayString(items[1..]))
  }

  /** lodash `toString`: null and undefined become the empty string. */
  function LodashString(v: Option<Json>): string {
    if v.None? || v.value.JNull? then [] else LodashValueString(v.value)
  }
}
