/** Small types every part of the model shares. */
module Wrappers {
  datatype Option<+T> = None | Some(value: T)

  // For counting what holds.
  function One(b: bool): nat { if b then 1 else 0 }
}
