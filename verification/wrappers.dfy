/** Optional values and results, standing in for Java's nullable references
    and for methods that either return a value or throw. */
module Wrappers {

  /** A nullable value: None is Java's null. */
  datatype Option<+T> = None | Some(value: T) {

    /** The value, or a default when it is None. */
    function GetOr(default: T): T {
      match this
      case Some(v) => v
      case None => default
    }
  }

  /** A value or the error a Java method would have thrown. */
  datatype Result<+R, +E> = Success(value: R) | Failure(error: E)
}
