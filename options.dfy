/** The optional value used for "found / not found" and "handler / no handler". */
module Options {
  datatype Option<+T> = None | Some(value: T)
}
