/** The usual optional-value datatype, used for readings that may fail. */
module Wrappers {
  datatype Option<+T> = None | Some(value: T)
}
