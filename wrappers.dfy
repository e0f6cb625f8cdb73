/** Optional values and results with an error, shared by every module. */
module Wrappers {

  /** A value that may be absent: JavaScript's `undefined`/`null` or an optional field. */
  datatype Option<+T> = None | Some(value: T)

  /** The outcome of a helper that either returns a value or throws an error. */
  datatype Result<+T, +E> = Ok(value: T) | Err(error: E)
}
