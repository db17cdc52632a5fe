/** An optional value: stands for Python's `None` and for pandas' NaN results. */
module Wrappers {

  datatype Option<+T> = None | Some(value: T)
}
