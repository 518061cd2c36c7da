/** A nullable value, for the places where the activity reads a value that may be null. */
module Wrappers {
  datatype Option<+T> = None | Some(value: T)
}
