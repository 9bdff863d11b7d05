/** The optional-value datatype used for the nullable values of the app
    (Kotlin's `T?`). */
module Wrappers {

  datatype Option<+T> = None | Some(value: T)
}
