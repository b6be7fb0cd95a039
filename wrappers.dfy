/** The optional value used for pointers that may be null and lookups that may miss. */
module Wrappers {
  datatype Option<+T> = None | Some(value: T)
}
