/** Option, Result and the Java exceptions the modelled code throws. */
module Wrappers {

  datatype Option<+T> = None | Some(value: T)

  /** The exception classes thrown by the modelled code, with their messages
      (an empty message stands for an exception constructed without one). */
  datatype Exception =
    | RuntimeException(message: string)
    | IllegalArgumentException(message: string)
    | IllegalStateException(message: string)
    | IndexOutOfBoundsException
    | NullPointerException
    | GdxRuntimeException(message: string)

  /** The result of a Java method that returns a value or throws. */
  datatype Result<+T> = Ok(value: T) | Throws(error: Exception)

  /** The result of a Java void method: it returns normally or throws. */
  datatype Outcome = Done | Raised(error: Exception)
}
