/** Optional values and results, used for the engine's error paths. */
module Outcomes {
  datatype Option<T> = None | Some(value: T)

  datatype Result<T, E> = Success(value: T) | Failure(error: E)
}
