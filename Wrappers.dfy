/** Option, standing in for the source's nullable values (`T | null`, optional fields). */
module Wrappers {

  datatype Option<+T> = None | Some(value: T)
}
