/** The usual optional value: a JavaScript property that may be absent. */
module Optional {
  datatype Option<+T> = None | Some(value: T)
}
