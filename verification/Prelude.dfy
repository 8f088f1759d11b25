/** Value types shared by every component model. */
module Prelude {
  datatype Option<+T> = None | Some(value: T)

  /** The largest `u64`; Rust's `checked_add` refuses to pass it. */
  const U64_MAX: nat := 0xFFFF_FFFF_FFFF_FFFF

  /** Beyond this bound a number may change on its way through JavaScript, so nothing is numbered above it. */
  const MAX_SAFE_INTEGER: nat := 9_007_199_254_740_991

  type Byte = b: int | 0 <= b < 256

  /** A Rust `String`, as its UTF-8 bytes. */
  type Text = seq<Byte>

  ghost predicate StrictlyIncreasing(s: seq<nat>) {
    forall i, j :: 0 <= i < j < |s| ==> s[i] < s[j]
  }

}
