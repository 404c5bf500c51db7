/** An optional value: what the form's code expresses with Python's `None`. */
module Wrappers {

  datatype Option<+T> = None | Some(value: T)
}
