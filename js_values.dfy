/**
 * The few JavaScript value rules the modelled code relies on: what a `catch`
 * clause can receive, and when a string counts as truthy.
 */
module JsValues {
  import opened Wrappers

  /** A value caught by `catch (err)`: an `Error` instance (with its message) or anything else. */
  datatype Thrown = ErrorObject(message: string) | NonError

  /** A string is truthy exactly when it is not empty. */
  predicate Truthy(s: string) {
    s != ""
  }

  /** An optional string is truthy when it is present and not empty. */
  predicate TruthyOpt(s: Option<string>) {
    s.Some? && Truthy(s.value)
  }

  /** `err instanceof Error ? err.message : fallback` */
  function MessageOf(err: Thrown, fallback: string): (m: string)
    ensures err.ErrorObject? ==> m == err.message
    ensures err.NonError? ==> m == fallback
  {
    match err
    case ErrorObject(msg) => msg
    case NonError => fallback
  }
}
