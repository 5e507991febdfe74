/** The Option datatype used wherever the dashboard code works with a value that may be
    missing (`null` or `undefined` in the original). */
module Wrappers {

  datatype Option<+T> = None | Some(value: T)
}
