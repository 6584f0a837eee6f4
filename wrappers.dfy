/** Optional values and error results shared by the other modules. */
module Wrappers {

  /** A value that may be absent (an `undefined` property, a `null` reference, a missing key). */
  datatype Option<+T> = None | Some(value: T)

  /** The outcome of an operation that either yields a value or raises an error. */
  datatype Result<+T, +E> = Ok(value: T) | Err(error: E)
}
