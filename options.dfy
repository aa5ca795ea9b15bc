/** A value that may be absent, shared by the modules that return one. */
module Options {
  datatype Option<T> = None | Some(value: T)
}
