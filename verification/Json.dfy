/**
 * JSON values as `JSON.parse` produces them, and the two pieces of JavaScript
 * semantics the gateway's shape test relies on: truthiness and property access.
 */
module Json {
  import opened Types

  /** Objects are maps: `JSON.parse` keeps the last of duplicate keys. */
  datatype Json =
    | JNull
    | JBool(b: bool)
    | JNumber(n: real)
    | JString(s: string)
    | JArray(items: seq<Json>)
    | JObject(members: map<string, Json>)

  /** JavaScript truthiness of a parsed value. */
  predicate Truthy(j: Json)
  {
    match j
    case JNull => false
    case JBool(b) => b
    case JNumber(n) => n != 0.0
    case JString(s) => s != ""
    case _ => true
  }

  /**
   * Property access `j.key`; `None` is `undefined`. A key that is not a member
   * of an object, and any key on a value that is not an object, reads as
   * `undefined` (the property names used here are not inherited ones).
   */
  function Get(j: Json, key: string): Option<Json>
  {
    if j.JObject? && key in j.members then Some(j.members[key]) else None
  }

  /** The gateway's shape test `parsed && Array.isArray(parsed.recommendations)`. */
  predicate IsBatch(j: Json)
  {
    Truthy(j) && var r := Get(j, "recommendations"); r.Some? && r.value.JArray?
  }

  /** The shape test passes exactly for an object whose `recommendations` member is an array. */
  lemma IsBatchShape(j: Json)
    ensures IsBatch(j) <==>
      j.JObject? && "recommendations" in j.members && j.members["recommendations"].JArray?
  {
  }
}
