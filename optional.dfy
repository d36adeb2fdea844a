/** An optional value: `undefined` or absent where the source has one. */
module Optional {

  datatype Option<T> = None | Some(value: T)
}
