/** Go's nil-or-value: a nil pointer, a nil error, an unset field. */
module Options {

  datatype Option<+T> = None | Some(value: T)
}
