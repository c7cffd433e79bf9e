/** Values that may be absent: JavaScript's `null`/`undefined` alternatives. */
module Optional {
  datatype Option<+T> = None | Some(value: T)
}
