/** A value that may be missing, where the program uses NULL. */
module Options {
  datatype Option<T> = None | Some(value: T)
}
