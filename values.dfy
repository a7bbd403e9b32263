/**
 * The document values exchanged between the Ruby side, the driver and the
 * server-side script: BSON/JSON values. Numbers are integers; floating point
 * is not part of this model.
 */
module Values {

  datatype Value =
    | Null
    | Bool(b: bool)
    | Num(n: int)
    | Str(s: string)
    | Arr(items: seq<Value>)
    | Doc(fields: map<string, Value>)

  /** JavaScript truthiness: `null`, `false`, `0` and `""` are falsy. */
  predicate JsTruthy(v: Value)
  {
    match v
    case Null => false
    case Bool(b) => b
    case Num(n) => n != 0
    case Str(s) => s != ""
    case _ => true
  }

  /** Ruby truthiness: only `nil` and `false` are falsy. */
  predicate RubyTruthy(v: Value)
  {
    !v.Null? && v != Bool(false)
  }

  /** A document's member `key`, or `Null` when it is absent (`undefined` in JavaScript, `nil` in Ruby). */
  function Member(fields: map<string, Value>, key: string): Value
  {
    if key in fields then fields[key] else Null
  }

  /** The per-query failure marker `{error: e}` written by the server-side routine. */
  function ErrorMarker(e: Value): (r: Value)
    ensures r.Doc? && r.fields.Keys == {"error"} && Member(r.fields, "error") == e
  {
    Doc(map["error" := e])
  }
}
