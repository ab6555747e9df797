/** A tri-state value: unset, or set to a value. */
module Wrappers {

  datatype Option<+T> = None | Some(value: T)
}
