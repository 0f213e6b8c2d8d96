/** The optional value used for the launch arguments that a debug configuration may leave unset. */
module Wrappers {

  datatype Option<+T> = None | Some(value: T)
}
