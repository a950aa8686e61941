/** Python's `None`-or-value, for the optional best loss and for unknown modes. */
module Options {
  datatype Option<+T> = None | Some(value: T)
}
