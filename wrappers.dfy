/** Failure-carrying return types standing in for the exceptions the
    configuration reader raises. */
module Wrappers {

  datatype Option<+T> = None | Some(value: T)

  /** Either a value or the error that aborted the operation. */
  datatype Result<+R, +E> = Ok(value: R) | Err(error: E)

  /** Success without a value, or the error that aborted the operation. */
  datatype Outcome<+E> = Pass | Fail(error: E)
}
