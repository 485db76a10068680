/** JSON values as the request handlers receive them from `request.json()`. */
module Json {
  import opened Wrappers

  /**
   * A parsed JSON value, plus `Undefined` for a missing property. Numbers are
   * integers here: the handlers only ever test them for truthiness.
   */
  datatype JsonValue =
    | Undefined
    | Null
    | Bool(b: bool)
    | Number(n: int)
    | Str(s: string)
    | Array(items: seq<JsonValue>)
    | Object(fields: map<string, JsonValue>)

  /** JavaScript truthiness: `undefined`, `null`, `false`, `0` and `""` are falsy. */
  predicate Truthy(v: JsonValue) {
    match v
    case Undefined => false
    case Null => false
    case Bool(b) => b
    case Number(n) => n != 0
    case Str(s) => s != ""
    case Array(_) => true
    case Object(_) => true
  }

  /**
   * Property access `v[key]` for a key no prototype defines: a missing property
   * reads as `undefined`, and reading any property of `null` or `undefined`
   * throws a TypeError (None).
   */
  function Member(v: JsonValue, key: string): (r: Option<JsonValue>)
    ensures r.None? <==> v.Null? || v.Undefined?
    ensures v.Object? && key in v.fields ==> r == Some(v.fields[key])
  {
    match v
    case Undefined => None
    case Null => None
    case Object(fields) => Some(if key in fields then fields[key] else Undefined)
    case _ => Some(Undefined)
  }
}
