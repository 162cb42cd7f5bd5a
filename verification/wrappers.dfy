/** Optional values and results shared by the model's modules. */
module Wrappers {

  /** A value that may be absent: a settings key the document does not hold,
      a command-line option that was not given. */
  datatype Option<+T> = None | Some(value: T)

  /** The value of a computation, or the failure that stopped it. */
  datatype Result<+T, +E> = Ok(value: T) | Err(error: E)
}
