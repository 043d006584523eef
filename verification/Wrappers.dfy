/** The stock optional value, used where the program has a nil pointer or a missing map entry. */
module Wrappers {
  datatype Option<+T> = None | Some(value: T)
}
