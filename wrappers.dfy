/** The optional value used where the handler may or may not hold something yet. */
module Wrappers {
  datatype Option<+T> = None | Some(value: T)
}
