/** The optional-value and value-or-error types the other modules share. */
module Wrappers {

  /** A value that may be missing: a nil pointer, a JavaScript null, an absent map entry. */
  datatype Option<+T> = None | Some(value: T)

  /** Either a computed value or the reason it could not be computed. */
  datatype Result<+R, +E> = Success(value: R) | Failure(error: E)
}
