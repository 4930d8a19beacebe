module Options {
  /** A pointer that may be null, or a value that may be absent. */
  datatype Option<+T> = None | Some(value: T)
}
