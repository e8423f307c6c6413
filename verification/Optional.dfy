/** An optional value: Go's nil pointer versus a present one. */
module Optional {

  datatype Option<T> = None | Some(value: T)
}
