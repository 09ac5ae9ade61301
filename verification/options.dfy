/** The optional value used wherever the source stores null. */
module Options {
  datatype Option<T> = None | Some(value: T)
}
