/** A value that may be absent: Go's nil and its comma-ok results. */
module Options {

  datatype Option<T> = None | Some(value: T)
}
