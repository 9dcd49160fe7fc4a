/** The JavaScript values the generator runtime passes around, and their truthiness. */
module JsValues {

  datatype Value =
    | Undefined
    | Null
    | Bool(b: bool)
    | Number(n: real)
    | Str(s: string)
    | Error(message: string)
    | Ref(id: nat)

  /** The values a test takes for false. */
  const FALSY := {Undefined, Null, Bool(false), Number(0.0), Str("")}

  predicate Truthy(v: Value) {
    match v
    case Undefined => false
    case Null => false
    case Bool(b) => b
    case Number(n) => n != 0.0
    case Str(s) => s != ""
    case Error(_) => true
    case Ref(_) => true
  }
}
