/** The optional value used by the enum conversions and the reference decoder. */
module Wrappers {

  datatype Option<+T> = None | Some(value: T)
}
