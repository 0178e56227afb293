/** Failure-carrying values used in place of Go's `(value, error)` pairs and nil pointers. */
module Base {

  datatype Option<+T> = None | Some(value: T)

  /** `Ok(v)` stands for a Go call returning `(v, nil)`, `Err(e)` for one returning a non-nil error `e`. */
  datatype Result<+T, +E> = Ok(value: T) | Err(error: E)
}
