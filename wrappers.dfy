/** The optional value used wherever the pages hold `null`, `undefined` or an absent key. */
module Wrappers {

  datatype Option<+T> = None | Some(value: T)
}
