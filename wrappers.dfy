/** The optional value the recorder uses for fields that Python leaves as `None`. */
module Wrappers {
  datatype Option<+T> = None | Some(value: T)
}
