/** The optional value and the success-or-complaint outcome used across the flight console model. */
module Wrappers {

  /** A value that may be missing: a line that was never read, a menu key with no option. */
  datatype Option<+T> = None | Some(value: T)

  /** The outcome of checking one operator input: the accepted value, or the line printed to complain about it. */
  datatype Result<+R, +E> = Success(value: R) | Failure(error: E)
}
