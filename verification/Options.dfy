module Options {
  /** A value that may be missing: no row, no saved block, no key. */
  datatype Option<T> = None | Some(value: T)
}
