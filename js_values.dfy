/** The handful of JavaScript values the modelled snippets pass around.
    Numbers are mathematical integers; functions and objects that matter
    are modelled by the modules that own them. */
module JsValues {

  datatype Option<T> = None | Some(value: T)

  /** A JavaScript primitive value. */
  datatype JsValue = Undefined | Null | Bool(b: bool) | Num(n: int) | Str(s: string)

  /** How a call finished: normally with a value, or by throwing an error
      whose message is recorded. */
  datatype Completion<T> = Normal(value: T) | Throw(message: string)

  /** JavaScript truthiness, as used by `if (v)` and by the `x = a[i++]`
      loop guards: undefined, null, false, 0 and '' are falsy. */
  predicate Truthy(v: JsValue) {
    match v
    case Undefined => false
    case Null => false
    case Bool(b) => b
    case Num(n) => n != 0
    case Str(s) => s != ""
  }
}
