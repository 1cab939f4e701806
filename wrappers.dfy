/** Optional values (Java's nullable references) and results (Java's exceptions). */
module Wrappers {

  /** A Java reference that may be null. */
  datatype Option<+T> = None | Some(value: T)

  /** The outcome of a Java call: it returns normally, or it throws. */
  datatype Result<+R, +E> = Ok(value: R) | Err(error: E)
}
