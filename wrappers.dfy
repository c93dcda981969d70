/** The optional value used for operations of the compiler that may fail. */
module Wrappers {

  datatype Option<+T> = None | Some(value: T)
}
