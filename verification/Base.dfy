/** Datatypes shared by all parts of the model. */
module Base {
  datatype Option<+T> = None | Some(value: T)
}
