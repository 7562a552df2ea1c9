/** The conventional Some/None datatype, used where the source has a value
    that may be `null` or `undefined`. */
module Optional {
  datatype Option<+T> = None | Some(value: T)
}
