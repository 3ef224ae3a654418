module Wrappers {

  /** A cell that may be empty: pandas' NaN, or a key the spreadsheet left blank. */
  datatype Option<+T> = None | Some(value: T)
}
