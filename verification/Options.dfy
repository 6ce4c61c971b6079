/** A value that may be absent: Python's None, C++'s std::optional. */
module Options {
  datatype Option<+T> = None | Some(value: T)
}
