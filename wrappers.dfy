/** Option and Result values standing for JavaScript's `undefined` results and thrown errors. */
module Wrappers {

  datatype Option<+T> = None | Some(value: T)

  /** A value, or the message of the `Error` the JavaScript code throws. */
  datatype Result<+T> = Ok(value: T) | Err(message: string)

  /** The completion of an async operation that resolves to nothing or rejects with a message. */
  datatype Outcome = Pass | Fail(message: string)
}
