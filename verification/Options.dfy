/** The optional value used throughout for `undefined`, `null` and absent table columns. */
module Options {
  datatype Option<+T> = None | Some(value: T)
}
