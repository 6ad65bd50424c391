/** The optional value used wherever the source answers with `null`, `undefined` or `-1`. */
module Wrappers {

  datatype Option<+T> = None | Some(value: T)
}
