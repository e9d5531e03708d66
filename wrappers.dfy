/** An optional value. An indicator cell that pandas would hold as NaN is `None`. */
module Wrappers {
  datatype Option<+T> = None | Some(value: T)
}
