/** Small value wrappers shared by the page models. */
module Wrappers {

  /** A value that may be absent (JavaScript `null` / `undefined`). */
  datatype Option<+T> = None | Some(value: T)

  /** The settled result of an awaited backend call: it resolved with a value, or it threw. */
  datatype Outcome<+T> = Ok(value: T) | Failed
}
