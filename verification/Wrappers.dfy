/** The optional value used for pointers that may be NULL and for lookups that may fail. */
module Wrappers {
  datatype Option<+T> = None | Some(value: T)
}
