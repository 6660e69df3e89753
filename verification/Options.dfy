/** The optional value used by most other modules. */
module Options {
  datatype Option<+T> = None | Some(value: T)
}
