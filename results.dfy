/** Small failure-carrying datatypes used for the Java exceptions the widgets throw. */
module Results {

  /** A value that may be absent, standing for a Java reference that may be null. */
  datatype Option<+T> = None | Some(value: T)

  /** The outcome of an operation that either returns a value or throws. */
  datatype Result<+R, +E> = Success(value: R) | Failure(error: E)
}
