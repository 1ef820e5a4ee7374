/** The optional value used for "no code stored" and for a request the input validation rejected. */
module Wrappers {
  datatype Option<+T> = None | Some(value: T)
}
