/** The optional value used for every lookup or conversion that Python would raise on. */
module Wrappers {
  datatype Option<+T> = None | Some(value: T)
}
