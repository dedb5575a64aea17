/** JavaScript's `undefined` for a field that may not have been set yet. */
module Options {

  datatype Option<+T> = None | Some(value: T)
}
