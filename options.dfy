/** The optional value used where a JavaScript lookup can come back undefined. */
module Options {

  datatype Option<T> = None | Some(value: T)
}
