/** Failure-carrying return values: the Go `(value, error)` pairs of the source. */
module Wrappers {

  datatype Option<+T> = None | Some(value: T)

  /** `Ok(v)` is a Go call that returned `(v, nil)`; `Err(e)` one that returned a non-nil error. */
  datatype Result<+T> = Ok(value: T) | Err(error: string)
}
