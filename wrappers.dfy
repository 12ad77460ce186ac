/** The optional-value datatype used by parsing and lookup. */
module Wrappers {

  datatype Option<+T> = None | Some(value: T)
}
