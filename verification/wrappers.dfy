/** Option and Result, the stand-ins for Java's null and for thrown exceptions. */
module Wrappers {

  datatype Option<+T> = None | Some(value: T)

  /** A Failure carries the message of the exception the Java code throws. */
  datatype Result<+R> = Success(value: R) | Failure(error: string)

  /** A void call that either returns normally or throws with a message. */
  datatype Outcome = Pass | Fail(error: string)
}
