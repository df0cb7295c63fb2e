/** The usual optional value, for lookups and setters that can fail. */
module Options {
  datatype Option<T> = None | Some(value: T)
}
