/** The optional value used throughout the model for "no result". */
module Wrappers {

  datatype Option<+T> = None | Some(value: T)
}
