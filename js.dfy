/** The few JavaScript notions the lookup code relies on: absent values,
    calls that may throw, JSON request bodies, truthiness and the `||`
    default operator. */
module Js {

  /** A value that may be absent; `None` stands for both `null` and `undefined`. */
  datatype Option<+T> = None | Some(value: T)

  /** The outcome of a call that may throw: its value, or the message of the
      error it threw (a rejected promise is a throw at its `await`). */
  datatype Attempt<+T> = Done(value: T) | Threw(message: string)

  /** A value produced by `JSON.parse`. JSON has no `undefined` and no NaN. */
  datatype Json =
    | JNull
    | JBool(b: bool)
    | JNumber(n: real)
    | JString(s: string)
    | JArray(items: seq<Json>)
    | JObject(members: map<string, Json>)

  /** Reading the property `phoneNumber` of a parsed body. Only an object can
      carry it: no string, array, number or boolean has a built-in property of
      that name. `None` is `undefined`. */
  function PhoneNumberProperty(v: Json): (r: Option<Json>)
    ensures r.Some? <==> v.JObject? && "phoneNumber" in v.members
    ensures r.Some? ==> r.value == v.members["phoneNumber"]
  {
    if v.JObject? && "phoneNumber" in v.members then Some(v.members["phoneNumber"]) else None
  }

  /** JavaScript's ToBoolean being false: `undefined`, `null`, `false`, zero and "". */
  predicate Falsy(v: Option<Json>)
  {
    match v
    case None => true
    case Some(JNull) => true
    case Some(JBool(b)) => !b
    case Some(JNumber(n)) => n == 0.0
    case Some(JString(s)) => s == ""
    case Some(_) => false
  }

  /** A string-or-null value that is truthy, i.e. present and not empty. */
  predicate TruthyText(v: Option<string>)
  {
    v.Some? && v.value != ""
  }

  /** `v || null`: keeps a truthy string, turns "" into null. */
  function OrNull(v: Option<string>): (r: Option<string>)
    ensures r.Some? <==> TruthyText(v)
    ensures r.Some? ==> r == v
  {
    if TruthyText(v) then v else None
  }

  /** `v || fallback`: keeps a truthy string, otherwise the fallback. */
  function OrDefault(v: Option<string>, fallback: string): (r: string)
    ensures TruthyText(v) ==> r == v.value
    ensures !TruthyText(v) ==> r == fallback
    ensures fallback != "" ==> r != ""
  {
    if TruthyText(v) then v.value else fallback
  }
}
