/** The optional value used for the environment lookup and for parsing. */
module Wrappers {
  datatype Option<+T> = None | Some(value: T)
}
