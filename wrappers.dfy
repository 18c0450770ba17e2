/** The optional value used where the source returns `None` or finds nothing. */
module Wrappers {
  datatype Option<+T> = None | Some(value: T)
}
