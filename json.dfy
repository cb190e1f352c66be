/**
 * The part of JavaScript's data model the response handling looks at: a
 * parsed JSON value, its truthiness, reading a property off it, and what an
 * HTTP call to a generative-AI API hands back.
 */
module Json {
  import opened Wrappers

  /**
   * A value `JSON.parse` can return. A number is kept only as the one fact
   * truthiness needs (zero or not); JSON text cannot denote NaN.
   */
  datatype Json =
    | JNull
    | JBool(b: bool)
    | JNumber(nonZero: bool)
    | JString(s: string)
    | JArray(items: seq<Json>)
    | JObject(members: map<string, Json>)

  /** JavaScript's `ToBoolean` on a parsed value. */
  predicate Truthy(j: Json) {
    match j
    case JNull => false
    case JBool(b) => b
    case JNumber(nonZero) => nonZero
    case JString(s) => s != ""
    case JArray(_) => true
    case JObject(_) => true
  }

  /**
   * Reading `value.key` for a key that only ever names an own member of a
   * parsed object (the code reads `response` and `reasoning`): a TypeError on
   * `null`, `undefined` when the key is absent. Inherited properties such as
   * `length` or `constructor` are not modelled.
   */
  datatype Property = Throws | Undefined | Value(v: Json)

  function Get(j: Json, key: string): (p: Property)
    ensures p.Throws? <==> j.JNull?
    ensures p.Value? ==> j.JObject? && key in j.members && p.v == j.members[key]
    ensures j.JObject? && key in j.members ==> p == Value(j.members[key])
  {
    match j
    case JNull => Throws
    case JObject(members) => if key in members then Value(members[key]) else Undefined
    case _ => Undefined
  }

  /** The non-empty string stored under `key`, if there is one. */
  function StringField(j: Json, key: string): (r: Option<string>)
    ensures r.Some? <==> Get(j, key).Value? && Get(j, key).v.JString? && Get(j, key).v.s != ""
    ensures r.Some? ==> Get(j, key) == Value(JString(r.value)) && Truthy(JString(r.value))
  {
    match Get(j, key)
    case Value(JString(s)) => if s != "" then Some(s) else None
    case _ => None
  }

  /**
   * The outcome of one call to a generative API. `Failed` is every thrown
   * error: the network, a non-ok status, a body that is not JSON, or a
   * TypeError while walking `data.choices[0]` / `data.candidates[0]`.
   * `Received(content)` is the optional text found at the end of that walk.
   */
  datatype Reply = Failed | Received(content: Option<string>)

  /** The reply's text when it is truthy (present and non-empty). */
  function ContentOf(reply: Reply): (r: Option<string>)
    ensures r.Some? <==> reply.Received? && reply.content.Some? && reply.content.value != ""
    ensures r.Some? ==> r == reply.content
  {
    if reply.Received? && reply.content.Some? && reply.content.value != "" then reply.content else None
  }
}
