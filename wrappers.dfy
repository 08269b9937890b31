/** An optional value: the model's rendering of a React ref or an awaited
    result that may be absent. */
module Wrappers {
  datatype Option<+T> = None | Some(value: T)
}
