/** Optional values and results that carry an error message. */
module Wrappers {

  /** A value that may be absent: JavaScript's `null`/`undefined`, or a parse that failed. */
  datatype Option<T> = None | Some(value: T)

  /** The outcome of a step that may throw: its value, or the message of the error thrown. */
  datatype Result<T> = Ok(value: T) | Err(message: string)
}
