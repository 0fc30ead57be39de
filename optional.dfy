/** The usual Some/None wrapper, for lookups and parses that can fail. */
module Optional {
  datatype Option<+T> = None | Some(value: T)
}
