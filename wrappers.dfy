/** Small value wrappers shared by the model. */
module Wrappers {

  /** A JavaScript value that may be absent (`undefined` or `null`). */
  datatype Option<+T> = None | Some(value: T)

  /** The outcome of a JavaScript expression that may throw: either it returns a
      value, or it throws (a `TypeError` on a missing property, or a rejected
      promise of the external client). */
  datatype Outcome<+T> = Returned(value: T) | Threw
}
