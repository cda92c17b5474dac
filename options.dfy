/** A value that may be absent: a null pointer or a missing block. */
module Options {
  datatype Option<T> = None | Some(value: T)
}
