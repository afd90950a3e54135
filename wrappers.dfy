/** The absent-or-present value that Python spells `None` or a value. */
module Wrappers {

  datatype Option<+T> = None | Some(value: T)

  /** Every entry of `xs`, wrapped as present. */
  function AllSome<T>(xs: seq<T>): (wrapped: seq<Option<T>>) {
    seq(|xs|, k requires 0 <= k < |xs| => Some(xs[k]))
  }
}
