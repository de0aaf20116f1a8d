/** The Some/None datatype used where the original returns a sentinel, a null pointer or throws. */
module Wrappers {
  datatype Option<+T> = None | Some(value: T)
}
