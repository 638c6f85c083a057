/** The optional value the questionnaire uses for an answer that may be missing (Python's `None`). */
module Wrappers {

  datatype Option<+T> = None | Some(value: T)
}
