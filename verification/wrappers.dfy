/** The optional-value and outcome datatypes shared by the rest of the model. */
module Wrappers {

  /** A value that may be missing; for the global host slot, `None` is `undefined`. */
  datatype Option<+T> = None | Some(value: T)

  /** The outcome of an operation that either returns a value or throws an error. */
  datatype Result<+T, +E> = Ok(value: T) | Err(error: E)
}
