/** The values `JSON.parse` produces, and the property reads the handlers make on them. */
module JsonValues {
  import opened Wrappers

  /** A parsed JSON value. Numbers are exact reals; values that `JSON.parse`
      turns into `Infinity` (such as `1e400`) are not modelled. */
  datatype Json =
    | JNull
    | JBool(b: bool)
    | JNumber(n: real)
    | JString(s: string)
    | JArray(items: seq<Json>)
    | JObject(fields: map<string, Json>)

  /** A text frame as it arrives: either `JSON.parse` throws on it, or it yields a value. */
  datatype Frame = Garbled | Text(value: Json)

  /** `v?.[key]`: only an object has own properties to read; `None` is `undefined`.
      (None of the keys the handlers read is a property of `Object.prototype`.) */
  function Get(v: Json, key: string): Option<Json> {
    if v.JObject? && key in v.fields then Some(v.fields[key]) else None
  }

  /** `v?.type === t` */
  predicate HasType(v: Json, t: string) {
    Get(v, "type") == Some(JString(t))
  }

  /** `typeof v[key] === 'number'`, with the number. */
  function NumberField(v: Json, key: string): (r: Option<real>)
    ensures r.Some? <==> Get(v, key).Some? && Get(v, key).value.JNumber?
    ensures r.Some? ==> Get(v, key) == Some(JNumber(r.value))
  {
    match Get(v, key)
    case Some(JNumber(n)) => Some(n)
    case _ => None
  }

  /** `typeof v[key] === 'string'`, with the string. */
  function StringField(v: Json, key: string): (r: Option<string>)
    ensures r.Some? <==> Get(v, key).Some? && Get(v, key).value.JString?
    ensures r.Some? ==> Get(v, key) == Some(JString(r.value))
  {
    match Get(v, key)
    case Some(JString(s)) => Some(s)
    case _ => None
  }

  /** JavaScript's `!!x` on a property read: `undefined`, `null`, `false`, `0`
      and `""` are falsy; every array and object is truthy. */
  predicate Truthy(x: Option<Json>) {
    match x
    case None => false
    case Some(JNull) => false
    case Some(JBool(b)) => b
    case Some(JNumber(n)) => n != 0.0
    case Some(JString(s)) => s != ""
    case Some(JArray(_)) => true
    case Some(JObject(_)) => true
  }

  /** The property `key: x` of an object literal: a property whose value is
      `undefined` is left out by `JSON.stringify`. */
  function Entry(key: string, x: Option<Json>): (m: map<string, Json>)
    ensures key in m <==> x.Some?
    ensures m.Keys <= {key}
    ensures x.Some? ==> m[key] == x.value
  {
    if x.Some? then map[key := x.value] else map[]
  }
}
