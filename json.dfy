/** JSON values as they arrive in a scoring request, and Python's `dict.get`. */
module Json {

  /** A scalar JSON value: `null`, a boolean, an integer, a floating-point number or a string. */
  datatype Value = Null | Bool(b: bool) | Int(i: int) | Real(r: real) | Str(s: string)

  /** A decoded JSON object: feature name to raw value. */
  type Payload = map<string, Value>

  /** The integer 0 that the handler writes for absent fields. */
  const ZERO: Value := Int(0)

  /** `m.get(key, default)`. */
  function Get(m: Payload, key: string, default: Value): Value {
    if key in m then m[key] else default
  }
}
