/** Option, Result and Outcome: the model's stand-ins for PHP's nullable values
    and for the exceptions the listener lets escape. */
module Wrappers {

  datatype Option<+T> = None | Some(value: T)

  /** A value, or the exception that was thrown instead of producing it. */
  datatype Result<+R, +E> = Success(value: R) | Failure(error: E)

  /** The result of a hook or helper that returns nothing (PHP `void`), or the
      exception it threw. */
  datatype Outcome<+E> = Pass | Fail(error: E)
}
