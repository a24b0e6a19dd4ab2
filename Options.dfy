/** Small optional-value datatype shared by the modules of this model. */
module Options {

  /** A value that may be absent (`null`/`undefined` in the application). */
  datatype Option<T> = None | Some(value: T)
}
