/** The Option datatype used for absent values in the report model. */
module Wrappers {

  datatype Option<+T> = None | Some(value: T)
}
