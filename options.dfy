/** Swift's `Optional`, used for the nullable fields and values of the model. */
module Options {
  datatype Option<+T> = None | Some(value: T)
}
