/** Values shared by every component: an optional value, and the order on reals. */
module Wrappers {

  datatype Option<+T> = None | Some(value: T)

  function Min(a: real, b: real): real {
    if b < a then b else a
  }

  function Max(a: real, b: real): real {
    if b > a then b else a
  }
}
