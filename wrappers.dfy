/** Failure-carrying values shared by the read-back and the ingest models. */
module Wrappers {

  /** A value that may be absent: a missing key, a call that did not answer. */
  datatype Option<+T> = None | Some(value: T)

  /** The outcome of an operation that either yields a value or fails with an error. */
  datatype Result<+R, +E> = Success(value: R) | Failure(error: E)
}
