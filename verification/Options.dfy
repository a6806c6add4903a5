/** The optional value used for every nil-able field and reference of the model. */
module Options {
  datatype Option<+T> = None | Some(value: T)
}
