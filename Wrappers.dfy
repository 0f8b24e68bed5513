/** Optional values and results, as used by the freight-quote model. */
module Wrappers {

  /** A value that may be missing (JavaScript's `undefined` from `Array.find`). */
  datatype Option<+T> = None | Some(value: T)

  /** Either a computed value or an error. */
  datatype Result<+T, +E> = Ok(value: T) | Err(error: E)
}
