/** An output that a C routine may leave unwritten. */
module Optional {

  datatype Option<T> = None | Some(value: T)
}
