/** Small value types shared by every module: optional values (Java's null),
    results of calls that may throw, and the exceptions they carry. */
module Wrappers {

  datatype Option<+T> = None | Some(value: T)

  datatype Result<+R, +E> = Success(value: R) | Failure(error: E)

  /** A Java exception, identified only by its message. */
  datatype Exception = Exception(message: string)

  /** What a call into code outside the model did: it returned normally or threw. */
  datatype Outcome = Returns | Throws(ex: Exception)
}
