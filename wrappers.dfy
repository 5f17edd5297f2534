/** A value that may be absent: the current episode, or none. */
module Wrappers {

  datatype Option<+T> = None | Some(value: T)
}
