/** The Option datatype used for "a record or nothing". */
module Wrappers {

  datatype Option<+T> = None | Some(value: T)

}
