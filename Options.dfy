/** The optional value used where the JavaScript code reads a property that may be absent. */
module Options {
  datatype Option<+T> = None | Some(value: T)
}
