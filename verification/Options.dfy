/** The one generic datatype the other modules share: a value, or the source's `null`. */
module Options {
  datatype Option<+T> = None | Some(value: T)
}
