/** Option and Result, standing in for JavaScript's `undefined`/`NaN` and for early error returns. */
module Wrappers {

  datatype Option<+T> = None | Some(value: T)

  datatype Result<+T, +E> = Ok(value: T) | Err(error: E)
}
