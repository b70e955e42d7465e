/** Option and result wrappers shared by every module of the model. */
module Base {

  /** A value that may be absent: SQL NULL, or a JavaScript `undefined`/missing property. */
  datatype Option<+T> = None | Some(value: T)

  /** The result of a request that either produces a value or fails. */
  datatype Result<+R, +E> = Success(value: R) | Failure(error: E)

  /** The result of a request that produces no value on success. */
  datatype Outcome<+E> = Pass | Fail(error: E)
}
