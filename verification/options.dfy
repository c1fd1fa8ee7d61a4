/** Optional values and results shared by every module. */
module Options {

  /** An optional value: Go's "nil or something". */
  datatype Option<+T> = None | Some(value: T)

  /** A value or an error, as Go's `(value, error)` pairs where exactly one is meaningful. */
  datatype Result<+T, +E> = Success(value: T) | Failure(error: E)
}
