/** A value that may be absent. */
module Common {

  datatype Option<T> = None | Some(value: T)
}
