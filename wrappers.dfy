/** The optional value used wherever the game reads a resource or a lookup that may be absent. */
module Wrappers {
  datatype Option<+T> = None | Some(value: T)
}
