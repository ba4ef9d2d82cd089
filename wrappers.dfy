/** The optional value used for the attributes a state may or may not carry. */
module Wrappers {

  datatype Option<+T> = None | Some(value: T)
}
