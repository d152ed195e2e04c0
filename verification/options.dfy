// Values that may be absent, as the source's (value, found) and (value, error) pairs.
module Options {
  datatype Option<+T> = None | Some(value: T)
}
