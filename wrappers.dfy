/** Option, used for the nullable values of the application (`User | null`). */
module Wrappers {

  datatype Option<+T> = None | Some(value: T)
}
