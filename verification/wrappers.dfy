/** Failure-carrying datatypes used where the Rust code returns an error or
    would panic. */
module Wrappers {

  /** A value that may be absent, as returned by an iterator's `next()`. */
  datatype Option<+T> = None | Some(value: T)

  /** Either a computed value or the reason it could not be computed. */
  datatype Result<+T, +E> = Success(value: T) | Failure(error: E)
}
