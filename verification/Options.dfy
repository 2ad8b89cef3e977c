/** The conventional Some/None datatype, standing for the source's nullable values. */
module Options {
  datatype Option<+T> = None | Some(value: T)
}
