/** The optional value used where the sketch relies on `null`/`undefined`. */
module Wrappers {

  datatype Option<+T> = None | Some(value: T)
}
