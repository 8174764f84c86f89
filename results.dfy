/** Optional values and fallible results, used throughout the model. */
module Results {

  datatype Option<+T> = None | Some(value: T)

  /** Either a value, or the exception that the Ruby code would raise instead. */
  datatype Result<+T, +E> = Success(value: T) | Failure(error: E)
}
