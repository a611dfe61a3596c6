/** The optional value used throughout the model: a JavaScript `null` or a value. */
module Options {
  datatype Option<+T> = None | Some(value: T)
}
