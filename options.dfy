/** The optional value used for nullable handles and for "no change" answers. */
module Options {
  datatype Option<+T> = None | Some(value: T)
}
