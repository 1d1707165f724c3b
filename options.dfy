/** Kotlin's nullable values (`T?`), as an option type. */
module Options {

  datatype Option<+T> = None | Some(value: T)
}
