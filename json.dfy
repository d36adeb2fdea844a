/** The values a parsed JSON request body can hold for one field, and the
    JavaScript tests the route handlers apply to them: truthiness, `typeof`,
    `=== undefined`, and whether `Number(v)` is a number. */
module Json {

  /** A field of a parsed request body. `Undefined` is a missing key;
      `Composite` is an array or an object, carried with the text that
      `String(v)` would give, since `Number(v)` parses that text. */
  datatype Value =
    | Undefined
    | Null
    | Bool(b: bool)
    | Num(n: int)
    | Str(s: string)
    | Composite(text: string)

  /** JavaScript truthiness: `!v` is false exactly for these values. */
  predicate Truthy(v: Value) {
    match v
    case Undefined => false
    case Null => false
    case Bool(b) => b
    case Num(n) => n != 0
    case Str(s) => s != ""
    case Composite(_) => true
  }

  /** `!isNaN(Number(v))`. Whether a text parses as a number is left to the
      parameter `numericText`; the other cases are fixed by the language. */
  predicate ParsesAsNumber(v: Value, numericText: string -> bool) {
    match v
    case Undefined => false
    case Null => true
    case Bool(_) => true
    case Num(_) => true
    case Str(s) => numericText(s)
    case Composite(text) => numericText(text)
  }
}
