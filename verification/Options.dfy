/** The optional value used wherever the program returns None. */
module Options {
  datatype Option<+T> = None | Some(value: T)
}
