/** An optional value: an object reference that may be null, or a widget that may not have been touched. */
module Options {
  datatype Option<T> = None | Some(value: T)
}
