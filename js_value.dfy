/** The few JavaScript value semantics the server and the widget depend on:
    optional values, truthiness, template-literal interpolation and thrown errors. */
module JsValue {

  datatype Option<+T> = None | Some(value: T)

  /** A value received as JSON, as the code observes it. Strings are kept
      exactly, because the code compares them with `===` and filters on them;
      every other value (numbers, booleans, arrays, objects) is known only by
      its truthiness and by what `${v}` makes of it. `text` is None when that
      conversion throws, which happens for an object whose `toString` is not
      callable. */
  datatype Val =
    | Undefined
    | Null
    | Str(s: string)
    | Other(truthy: bool, text: Option<string>)

  /** JavaScript truthiness: undefined, null and "" are falsy; number 0, NaN
      and false are the falsy values among the others. */
  predicate Truthy(v: Val)
  {
    match v
    case Undefined => false
    case Null => false
    case Str(s) => s != ""
    case Other(t, _) => t
  }

  /** `${v}`, or None when the conversion throws. */
  function Interpolate(v: Val): (r: Option<string>)
    ensures v.Str? ==> r == Some(v.s)
    ensures r.None? <==> v.Other? && v.text.None?
  {
    match v
    case Undefined => Some("undefined")
    case Null => Some("null")
    case Str(s) => Some(s)
    case Other(_, t) => t
  }

  /** The message of the TypeError thrown when `${v}` cannot convert v. */
  const ToPrimitiveError := "Cannot convert object to primitive value"

  /** How a JavaScript expression completes: with a value, or by throwing an
      Error whose `message` is given. Failure-compatible, so `:-` propagates
      a throw the way JavaScript does. */
  datatype Completion<+T> = Normal(value: T) | Throw(message: string) {

    predicate IsFailure() {
      Throw?
    }

    function PropagateFailure<U>(): Completion<U>
      requires Throw?
    {
      Throw(message)
    }

    function Extract(): T
      requires Normal?
    {
      value
    }
  }
}
