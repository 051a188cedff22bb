/** The optional value used for data that may be `undefined` in the client. */
module Wrappers {
  datatype Option<+T> = None | Some(value: T)
}
