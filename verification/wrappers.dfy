/** The optional value used where a value may be `undefined`. */
module Wrappers {

  datatype Option<+T> = None | Some(value: T)
}
