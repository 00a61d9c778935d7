/** The Option type used where the plugin sees "a value or nothing". */
module Wrappers {

  datatype Option<+T> = None | Some(value: T)
}
