/** The optional value used for nullable page state and missing response fields. */
module Options {
  datatype Option<T> = None | Some(value: T)
}
