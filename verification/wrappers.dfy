/** The optional-value datatype used for "an event may or may not be raised". */
module Wrappers {

  datatype Option<+T> = None | Some(value: T)
}
