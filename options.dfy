/** The optional value used throughout the model: JavaScript's `undefined` is `None`. */
module Options {
  datatype Option<+T> = None | Some(value: T)
}
