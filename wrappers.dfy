/** The optional value used for timestamps and durations that JavaScript leaves `undefined`. */
module Wrappers {

  datatype Option<+T> = None | Some(value: T)
}
