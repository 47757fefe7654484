/** The JavaScript values that reach the server inside socket payloads, as
    far as the server's logic inspects them: it only ever asks whether a
    field is present and whether it is truthy. */
module JsValues {

  /** A JSON-like value. Numbers are reals (NaN and -0 are not modelled);
      objects and arrays are opaque and identified by a reference. */
  datatype JsValue =
    | Undefined
    | Null
    | Bool(b: bool)
    | Num(x: real)
    | Str(s: string)
    | Obj(ref: nat)

  /** JavaScript truthiness: what `if (v)` and `!v` test. */
  predicate Truthy(v: JsValue) {
    match v
    case Undefined => false
    case Null => false
    case Bool(b) => b
    case Num(x) => x != 0.0
    case Str(s) => s != ""
    case Obj(_) => true
  }

  /** The `data` argument of a socket handler. `Absent` is a handler invoked
      with `undefined` or `null`: destructuring it or reading a property of
      it throws a TypeError. A `Record` is a plain object. */
  datatype Payload =
    | Absent
    | Record(fields: map<string, JsValue>)

  /** `data.name` on a plain object: `undefined` when the field is missing. */
  function Field(data: Payload, name: string): (v: JsValue)
    requires data.Record?
    ensures name !in data.fields ==> v == Undefined
    ensures name in data.fields ==> v == data.fields[name]
  {
    if name in data.fields then data.fields[name] else Undefined
  }
}
