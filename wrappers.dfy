/** Option and Result: the model's stand-ins for Java's null, Optional and thrown exceptions. */
module Wrappers {

  /** `None` plays the part of Java's null or an empty Optional. */
  datatype Option<+T> = None | Some(value: T) {
    function GetOr(default: T): T {
      match this
      case Some(v) => v
      case None => default
    }
  }

  /** The value a Java method returns, or the exception it throws instead. */
  datatype Result<+R, +E> = Success(value: R) | Failure(error: E)
}
