/** Option, standing in for the null pointers the drumkit code returns and tests. */
module Wrappers {
  datatype Option<+T> = None | Some(value: T)
}
