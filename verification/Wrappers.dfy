/** Shared helper datatypes. */
module Wrappers {

  datatype Option<+T> = None | Some(value: T)

  function One(b: bool): nat {
    if b then 1 else 0
  }
}
