/** Optional values and results with an error, shared by every module of the model. */
module Outcomes {

  /** A value that may be absent (a Go nil pointer). */
  datatype Option<+T> = None | Some(value: T)

  /** Either a value or the error a Go function returns beside it. */
  datatype Result<+T, +E> = Ok(value: T) | Err(error: E)
}
