/** The optional values and the error returns the other modules share. */
module Outcomes {

  datatype Option<+T> = None | Some(value: T)

  datatype Result<+T, +E> = Ok(value: T) | Err(error: E)

  /** An optional field that is filled only when it is empty. */
  function FillAbsent<T>(own: Option<T>, stored: Option<T>): Option<T> {
    if own.None? then stored else own
  }
}
