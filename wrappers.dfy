/** The optional-value datatype used where the source reads an entry that may be missing. */
module Wrappers {
  datatype Option<+T> = None | Some(value: T)
}
