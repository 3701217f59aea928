/** The optional value that the backend's lookups return where the Python code returns None. */
module Wrappers {

  datatype Option<+T> = None | Some(value: T)
}
