/**
 * Conversion from the container's nanosecond clock to Media Foundation's
 * reference time (100-nanosecond units), as the source does it with the
 * C++ `/` operator on a signed 64-bit value: the quotient is truncated
 * toward zero, which differs from Dafny's Euclidean `/` on negative values.
 */
module RefTime {

  /** `ns / 100` in C++ (truncation toward zero), for any sign of `ns`. */
  function NsToRefTime(ns: int): (r: int)
    ensures ns >= 0 ==> 0 <= 100 * r <= ns < 100 * r + 100
    ensures ns < 0 ==> 100 * r - 100 < ns <= 100 * r <= 0
  {
    if ns >= 0 then ns / 100 else -((-ns) / 100)
  }

  /** Truncation keeps the order of timestamps. */
  lemma NsToRefTimeMonotone(a: int, b: int)
    requires a <= b
    ensures NsToRefTime(a) <= NsToRefTime(b)
  {
  }

  /**
   * A duration converted on its own, `(next - curr) / 100`, differs from the
   * difference of the two converted timestamps by at most one reference-time
   * unit, and for non-negative times it is never larger.
   */
  lemma DurationDrift(curr: int, next: int)
    requires curr <= next
    ensures -1 <= NsToRefTime(next) - NsToRefTime(curr) - NsToRefTime(next - curr) <= 1
    ensures 0 <= curr ==>
      0 <= NsToRefTime(next) - NsToRefTime(curr) - NsToRefTime(next - curr) <= 1
  {
  }
}
