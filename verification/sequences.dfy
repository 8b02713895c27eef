/** Order-preserving selection on sequences. */
module Sequences {

  /** `a` can be obtained from `b` by deleting elements, so the elements of `a`
      appear in `b` in the same relative order. */
  ghost predicate Subsequence<T>(a: seq<T>, b: seq<T>)
    decreases |b|
  {
    || |a| == 0
    || (&& |b| > 0
        && if a[0] == b[0] then Subsequence(a[1..], b[1..]) else Subsequence(a, b[1..]))
  }
}
