/** Option and Result, for JavaScript's `undefined`/missing values and thrown errors. */
module Wrappers {
  datatype Option<+T> = None | Some(value: T)

  /** `Err` carries the message of the `Error` the JavaScript code throws. */
  datatype Result<+T> = Ok(value: T) | Err(error: string)
}
