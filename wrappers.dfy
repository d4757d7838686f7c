/** Optional values (JavaScript `undefined`) and fallible results (a thrown `Error`). */
module Wrappers {

  /** A possibly absent value; `None` stands for JavaScript's `undefined`. */
  datatype Option<+T> = None | Some(value: T)

  /** The outcome of a step that may throw: `Err` carries what was thrown. */
  datatype Result<+T, +E> = Ok(value: T) | Err(error: E)
}
