/** The optional value used for the nullable columns of a product record. */
module Wrappers {

  datatype Option<+T> = None | Some(value: T)
}
