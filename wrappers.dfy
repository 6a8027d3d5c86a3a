/** The nullable values of the Kotlin source (`T?`) as an explicit option type. */
module Wrappers {

  datatype Option<+T> = None | Some(value: T)
}
