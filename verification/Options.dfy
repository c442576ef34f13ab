/** The optional value used for the C++ library's error results. */
module Options {
  datatype Option<+T> = None | Some(value: T)
}
