/** The optional value used wherever a Go call can fail without saying why. */
module Wrappers {
  datatype Option<+T> = None | Some(value: T)
}
