/** Small helper datatypes shared by the other modules. */
module Wrappers {

  /** An optional value. A parsed number that is NaN is represented as `None`. */
  datatype Option<+T> = None | Some(value: T)
}
