/** The optional value used for the fields of an inbound event that may be absent. */
module Wrappers {

  datatype Option<+T> = None | Some(value: T)
}
