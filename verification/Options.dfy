module Options {
  /** A value that may be absent: a nil pointer, a failed read, a missing key. */
  datatype Option<T> = None | Some(value: T)
}
