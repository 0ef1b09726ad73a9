/** The optional-value datatype used for the pointer fields of an update. */
module Wrappers {

  datatype Option<+T> = None | Some(value: T)
}
