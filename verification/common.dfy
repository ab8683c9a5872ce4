/** Values the JavaScript and Python sources express with `undefined`, `null` or `None`. */
module Common {

  /** A present value, or its absence (`undefined`, `null`, `None`). */
  datatype Option<T> = None | Some(value: T)
}
