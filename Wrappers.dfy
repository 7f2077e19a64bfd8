/** Optional values and error-or-value results, standing in for Objective-C's
    nullable references and failing initialisers. */
module Wrappers {

  /** A nullable value: `None` plays the part of `nil`. */
  datatype Option<+T> = None | Some(value: T)

  /** The outcome of an operation that can fail with an error value. */
  datatype Result<+R, +E> = Success(value: R) | Failure(error: E)
}
