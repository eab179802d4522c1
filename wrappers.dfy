/** The optional value used throughout the model: a lookup that may find nothing, a pointer that may be null. */
module Wrappers {

  datatype Option<+T> = None | Some(value: T)
}
