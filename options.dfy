/** The usual optional value, for "no such element" and "not a number". */
module Options {
  datatype Option<+T> = None | Some(value: T)
}
