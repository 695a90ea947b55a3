/** The value-or-nothing datatype the other modules share. */
module Wrappers {
  datatype Option<+T> = None | Some(value: T)
}
