/** The Some/None datatype that stands for the program's `Option` values. */
module Options {
  datatype Option<+T> = None | Some(value: T)
}
