/** Stock types and small ordering helpers shared by every part of the model. */
module Basics {

  datatype Option<+T> = None | Some(value: T)

  /** Unix or monotonic seconds. Rounding of the original floats is not modelled. */
  type Time = real

  function Max(a: Time, b: Time): Time {
    if a < b then b else a
  }

  function Min(a: int, b: int): int {
    if a < b then a else b
  }

  /** What a provider write may have done, as the transport can prove it. */
  datatype Outcome = NotSubmitted | Rejected | Accepted | Unknown {
    predicate MayHaveBeenAccepted() {
      Accepted? || Unknown?
    }
  }
}
