/** The optional value used for a price fetch that may fail and for a baseline that may be unset. */
module Wrappers {

  datatype Option<+T> = None | Some(value: T)
}
