/** A cell that may be empty: pandas' NaN/None is `None` here. */
module Wrappers {

  datatype Option<+T> = None | Some(value: T)

}
