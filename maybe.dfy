/** Optional values and outcomes shared by every module of the model. */
module Maybe {

  /** A value that may be missing: JavaScript's `undefined`/`null`/`NaN` results. */
  datatype Option<T> = None | Some(value: T)

  /** The outcome of an operation that throws `Error(error)` on failure. */
  datatype Result<T> = Success(value: T) | Failure(error: string)
}
