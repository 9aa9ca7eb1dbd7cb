/** The optional-value datatype shared by the modules of this project. */
module Wrappers {

  /** A value that may be absent: a null pointer, a missing entry. */
  datatype Option<+T> = None | Some(value: T)
}
