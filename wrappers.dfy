/** The optional-value datatype used for results that may be undefined. */
module Wrappers {

  datatype Option<+T> = None | Some(value: T)
}
