/** Kotlin's nullable values (`T?`) as an explicit option. */
module Wrappers {

  datatype Option<+T> = None | Some(value: T)
}
