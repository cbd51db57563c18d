/** A value that may be absent, as returned by a dictionary lookup with `get`. */
module Optional {
  datatype Option<+T> = None | Some(value: T)
}
