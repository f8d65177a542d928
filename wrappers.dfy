/** The optional value used wherever the activity holds a Kotlin nullable reference. */
module Wrappers {

  datatype Option<+T> = None | Some(value: T)
}
