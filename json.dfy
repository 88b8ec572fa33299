/**
 * The payloads the cache stores are opaque JSON values, as returned by `response.json()`.
 * Only two things about them matter to the cache layer and its callers: JavaScript
 * truthiness (`if (cachedData)`, `data || default`) and reading a field (`data?.success`).
 */
module Json {

  datatype Json =
    | JNull
    | JBool(b: bool)
    | JNum(n: real)
    | JStr(s: string)
    | JArr(items: seq<Json>)
    | JObj(fields: map<string, Json>)

  /** JavaScript truthiness: `null`, `false`, `0` and `""` are falsy; arrays and objects are truthy. */
  predicate Truthy(j: Json) {
    match j
    case JNull => false
    case JBool(b) => b
    case JNum(n) => n != 0.0
    case JStr(s) => s != ""
    case JArr(_) => true
    case JObj(_) => true
  }

  /**
   * `j?.name` / `j.name` on a parsed body: the field of an object, and `undefined`
   * (represented by `JNull`, equally falsy) for a missing field or a non-object.
   */
  function Field(j: Json, name: string): (v: Json)
    ensures j.JObj? && name in j.fields ==> v == j.fields[name]
    ensures !(j.JObj? && name in j.fields) ==> !Truthy(v)
  {
    if j.JObj? && name in j.fields then j.fields[name] else JNull
  }

  /** `data?.success` taken as a condition. */
  predicate IsSuccess(j: Json) {
    Truthy(Field(j, "success"))
  }
}
