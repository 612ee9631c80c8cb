/** The optional value used across the model (a JavaScript `null`, a missing
    status update, a timer with no follow-up). */
module Wrappers {
  datatype Option<+T> = None | Some(value: T)
}
