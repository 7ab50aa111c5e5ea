/** The wrappers every module uses: an optional value, the outcome of an
    operation that can throw, and the outcome of a promise. */
module Outcomes {

  datatype Option<+T> = None | Some(value: T)

  /** A JavaScript call either returns a value or throws an Error whose
      `message` is the string kept here. */
  datatype Result<+T> = Ok(value: T) | Err(msg: string)

  /** How a JavaScript promise ends up: resolved with a value, rejected with
      an error message, or never settled. */
  datatype Settled<+T> = Resolved(value: T) | Rejected(reason: string) | Pending

  /** `undefined` (None) and the empty string are both falsy in JavaScript. */
  predicate Truthy(s: Option<string>)
  {
    s.Some? && s.value != ""
  }
}
