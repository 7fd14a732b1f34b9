/** Option, Result and Outcome: the Go `(value, error)` pair and the bare
    `error` return, as values. */
module Wrappers {

  datatype Option<+T> = None | Some(value: T)

  /** A Go `(T, error)` return: either a value or the error's message. */
  datatype Result<+T> = Ok(value: T) | Err(message: string)

  /** A Go `error` return: nil (`Pass`) or an error with its message. */
  datatype Outcome = Pass | Fail(message: string)

}
