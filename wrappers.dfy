/** The Option datatype the decoder of the clock face returns. */
module Wrappers {
  datatype Option<+T> = None | Some(value: T)
}
