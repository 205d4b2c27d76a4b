/** The optional value used for parse results: `None` stands for JavaScript's NaN. */
module Wrappers {
  datatype Option<+T> = None | Some(value: T)
}
