/** Option and result types used by the store and the handlers. */
module Wrappers {

  /** A value that may be missing: a failed lookup or a body that did not decode. */
  datatype Option<+T> = None | Some(value: T)

  /** Either the value to carry on with, or the early answer that ends the request. */
  datatype Result<+R, +E> = Success(value: R) | Failure(error: E)
}
