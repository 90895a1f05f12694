/** The optional value used throughout, for Python's `None`-or-value returns. */
module Options {

  datatype Option<+T> = None | Some(value: T)
}
