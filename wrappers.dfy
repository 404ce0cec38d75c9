/** Optional values and results with an error value. */
module Wrappers {

  /** A value that may be absent; `None` stands for a JavaScript `undefined` field. */
  datatype Option<+T> = None | Some(value: T)

  /** The outcome of a step that may fail with an error value. */
  datatype Result<+T, +E> = Ok(value: T) | Err(error: E)
}
