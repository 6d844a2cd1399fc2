/** An optional value, for a Python `None`. */
module Options {
  datatype Option<+T> = None | Some(value: T)
}
