/** Failure-carrying datatypes shared by the other modules. */
module Wrappers {

  /** A value that may be absent, as a JavaScript `undefined` or a thrown call. */
  datatype Option<+T> = None | Some(value: T)

  /** The outcome of a step that either yields a value or fails with an error. */
  datatype Result<+R, +E> = Success(value: R) | Failure(error: E)
}
