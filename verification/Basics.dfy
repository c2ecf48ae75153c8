// Small value types shared by every part of the model.
module Basics {
  datatype Option<+T> = None | Some(value: T)

  function Max(a: real, b: real): real {
    if a < b then b else a
  }

  function Min(a: real, b: real): real {
    if b < a then b else a
  }
}
