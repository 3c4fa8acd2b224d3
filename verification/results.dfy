/** Option and result wrappers shared by the configuration loader and the generator. */
module Results {

  /** An optional value; `None` stands for Go's `nil`. */
  datatype Option<+T> = None | Some(value: T)

  /** A value or an error, the Dafny reading of Go's `(T, error)` pair. */
  datatype Result<+R, +E> = Success(value: R) | Failure(error: E)
}
