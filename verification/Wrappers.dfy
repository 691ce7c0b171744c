/** Option, used wherever the server has a nullable pointer or a std::optional. */
module Wrappers {
  datatype Option<+T> = None | Some(value: T)
}
