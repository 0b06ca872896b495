/** A value that may be absent: an object that is not on disk, a field of a record that holds none. */
module Options {
  datatype Option<+T> = None | Some(value: T)
}
