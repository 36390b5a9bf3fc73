/** Values exchanged between components. The source passes untyped Python
    dictionaries on the event bus and reads them with `dict.get(key, default)`;
    a payload here is a map from field name to a dynamically typed value. */
module Payloads {

  datatype Option<+T> = None | Some(value: T)

  /** The outcome of a step that may raise, as Python code does when it does
      arithmetic on a value that is not a number. */
  datatype Result<+T> = Ok(value: T) | Raised(error: string)

  /** A dictionary value: a float, a string, a boolean or `None`. */
  datatype Value = Num(n: real) | Str(s: string) | Bool(b: bool) | Null

  type Payload = map<string, Value>

  /** The symbol every fake component falls back to. */
  const DefaultSymbol: string := "BTC/USD"

  const TypeError: string := "TypeError"

  /** `d.get(key, default)`: a key that is present wins, even when it holds `None`. */
  function Get(d: Payload, key: string, default: Value): Value
  {
    if key in d then d[key] else default
  }

  /** Python truthiness: zero, the empty string, `False` and `None` are false. */
  predicate Truthy(v: Value)
  {
    match v
    case Num(x) => x != 0.0
    case Str(s) => |s| > 0
    case Bool(b) => b
    case Null => false
  }

  /** Reading a value as an operand of `+`, `-`, `*`, `/` or `<`. */
  function AsNumber(v: Value): Result<real>
  {
    if v.Num? then Ok(v.n) else Raised(TypeError)
  }
}
