/** Failure-compatible wrappers shared by the scraper model. */
module Wrappers {

  /** A value that may be missing: a DOM node that is not there, an attribute that is null. */
  datatype Option<+T> = None | Some(value: T)

  /** The outcome of a step that may throw. */
  datatype Result<+T, +E> = Success(value: T) | Failure(error: E)
}
