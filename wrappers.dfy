/** Option, the shape of `std::optional` and of a nullable `const char*`. */
module Wrappers {
  datatype Option<+T> = None | Some(value: T)
}
