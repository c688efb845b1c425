/** Values shared by the modules of this project. */
module Core {

  datatype Option<+T> = None | Some(value: T)

  datatype Result<+T> = Ok(value: T) | Err(error: Error)

  /** A Go error. `nonRetryable` says whether errors.Is(err, ErrNonRetryable) holds. */
  datatype Error = Error(text: string, nonRetryable: bool)

  /** goflux.IsNonRetryable */
  predicate IsNonRetryable(e: Error) {
    e.nonRetryable
  }

  /** ctx.Err() */
  const CTX_ERR := Error("context done", false)
}
