/** The optional-value wrapper used for the guards of the view controller
    (a missing duration, a classifier that selects no command). */
module Wrappers {
  datatype Option<+T> = None | Some(value: T)
}
