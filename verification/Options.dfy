/** The value or null that TaruBot's optional columns, reads and answers hold. */
module Options {
  datatype Option<+T> = None | Some(value: T)
}
