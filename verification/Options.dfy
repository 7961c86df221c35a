/** A value that may be missing: a NULL pointer, or an unset column. */
module Options {
  datatype Option<T> = None | Some(value: T)
}
