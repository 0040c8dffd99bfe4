/** Option and Result: the model's stand-ins for JavaScript's `null` and for a
    rejected promise. */
module Wrappers {

  /** A value that may be missing (`null` in the source). */
  datatype Option<+T> = None | Some(value: T)

  /** The outcome of an asynchronous step: it resolves with a value or rejects
      with an error. */
  datatype Result<+T, +E> = Ok(value: T) | Err(error: E)
}
