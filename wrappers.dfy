/** The optional-value and value-or-error types shared by the modules of this model. */
module Wrappers {

  datatype Option<+T> = None | Some(value: T)

  /** Either a value or the exception that PHP would have thrown instead. */
  datatype Result<+R, +E> = Success(value: R) | Failure(error: E)
}
