/** The optional value used for lookups that may fail and for input that may not parse. */
module Options {
  datatype Option<+T> = None | Some(value: T)
}
