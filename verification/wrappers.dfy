// Optional values, used where the driver returns NULL, BITMAP_FAILED or a failure status, and
// the removal of one element of a list.
module Wrappers {
  datatype Option<+T> = None | Some(value: T)

  function Without<T>(xs: seq<T>, i: nat): seq<T>
    requires i < |xs|
  {
    xs[..i] + xs[i + 1..]
  }
}
