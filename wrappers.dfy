/** The optional value used where the host returns nothing or something unusable. */
module Wrappers {

  datatype Option<+T> = None | Some(value: T)
}
