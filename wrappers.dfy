/** Option and Result, the two failure-aware value shapes used throughout the model. */
module Wrappers {

  /** A value that may be missing: JavaScript's `null` / `undefined` for one field. */
  datatype Option<+T> = None | Some(value: T)

  /** The outcome of a call that may throw: a value or the thrown message. */
  datatype Result<+T> = Ok(value: T) | Err(error: string)
}
