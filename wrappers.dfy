/** Option and Result, the failure-carrying shapes the modelled code returns. */
module Wrappers {

  datatype Option<+T> = None | Some(value: T)

  datatype Result<+R, +E> = Success(value: R) | Failure(error: E)

  /** Outcome of an external step whose only payload is an error text (I/O that may fail). */
  datatype Outcome = Pass | Fail(message: string)
}
