/**
 * JSON values as the edge functions see them after `req.json()` or
 * `response.json()`, and the result of reading a property of such a value.
 */
module Json {

  /** A JSON value. Numbers are exact reals; object members form a map (last duplicate wins, as in JSON.parse). */
  datatype Json =
    | JNull
    | JBool(b: bool)
    | JNumber(n: real)
    | JString(s: string)
    | JArray(items: seq<Json>)
    | JObject(members: map<string, Json>)

  /** What `v.key` yields: `undefined` (Absent) or a JSON value. */
  datatype Slot = Absent | Present(value: Json)

  /** Property access on a plain JSON object. */
  function Member(m: map<string, Json>, key: string): (r: Slot)
    ensures r.Present? <==> key in m
    ensures r.Present? ==> r.value == m[key]
  {
    if key in m then Present(m[key]) else Absent
  }

  /**
   * `v.key` for any JSON value other than null (null throws a TypeError, which
   * callers model themselves): only an object can own the members read here.
   */
  function Property(v: Json, key: string): (r: Slot)
    requires !v.JNull?
    ensures r.Present? <==> v.JObject? && key in v.members
    ensures r.Present? ==> r.value == v.members[key]
  {
    if v.JObject? then Member(v.members, key) else Absent
  }
}
