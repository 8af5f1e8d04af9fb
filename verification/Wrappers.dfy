/** Optional values and small arithmetic, shared by every component. */
module Wrappers {
  datatype Option<+T> = None | Some(value: T)

  function Min(x: nat, y: nat): nat {
    if x < y then x else y
  }

  function Max(x: nat, y: nat): nat {
    if x < y then y else x
  }
}
