/** Option and Result: Java's nullable references and thrown exceptions, as values. */
module Wrappers {

  /** `None` stands for Java's `null`. */
  datatype Option<+T> = None | Some(value: T)

  /** `Failure` carries the message of the exception the Java code would throw. */
  datatype Result<+R, +E> = Success(value: R) | Failure(error: E)
}
