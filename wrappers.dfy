/** Optional values and results: the shape in which the model reports the
  * exceptions and error returns of the predictors. */
module Wrappers {

  datatype Option<T> = None | Some(value: T)

  datatype Result<T, E> = Ok(value: T) | Err(error: E)
}
