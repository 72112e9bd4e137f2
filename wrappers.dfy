/** The optional value used where the game reports "which channel, if any". */
module Wrappers {
  datatype Option<T> = None | Some(value: T)
}
