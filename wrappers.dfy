/** Option and Result, the two shapes every backend answer takes in this model. */
module Wrappers {

  datatype Option<+T> = None | Some(value: T)

  /** A thrown JavaScript error, reduced to its `message` ("" when it has none). */
  datatype Error = Error(message: string)

  /** `e.message || fallback`: what the screens show for a caught error. */
  function MessageOr(e: Error, fallback: string): (r: string)
    ensures e.message != "" ==> r == e.message
    ensures e.message == "" ==> r == fallback
  {
    if e.message != "" then e.message else fallback
  }

  /** The settled value of a promise: its value, or the error it rejected with. */
  datatype Result<+T> = Ok(value: T) | Err(error: Error)

  /** A promise whose value is not used: it either resolves or rejects. */
  datatype Outcome = Done | Failed(error: Error)
}
