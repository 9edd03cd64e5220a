/** The optional values used where the sources use `None`/`null`. */
module Options {
  datatype Option<+T> = None | Some(value: T)
}
