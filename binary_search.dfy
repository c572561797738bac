// The bisection used to look things up by time: the timeline keeps its own
// copy, and the graphics lookups call the same routine from the protocol
// utilities.  `callback(mid) < 0` sends the search left, anything else right,
// and the result is the final left bound.

module Bisection {

  /** `(start + end) / 2 | 0`: halve and truncate toward zero. */
  function Midpoint(start: int, end: int): (m: int)
    ensures start + 1 < end ==> start < m < end
  {
    var sum := start + end;
    if sum >= 0 then sum / 2 else -((-sum) / 2)
  }

  /**
   * The result of the bisection.  Whatever the callback, the result is the
   * start or a place where the callback is non-negative, and the place just
   * after it (inside the range) has a negative callback.
   */
  function Bisect(start: int, end: int, callback: int -> real): (r: int)
    ensures start < end ==> start <= r < end
    ensures start >= end ==> r == start
    ensures r == start || callback(r) >= 0.0
    ensures r + 1 < end ==> callback(r + 1) < 0.0
    decreases end - start
  {
    if start + 1 < end then
      var mid := Midpoint(start, end);
      if callback(mid) < 0.0 then Bisect(start, mid, callback) else Bisect(mid, end, callback)
    else
      start
  }

  /**
   * When the callback is non-increasing over the range and non-negative at the
   * start, the result is the last place where it is non-negative.
   */
  lemma BisectFindsLastNonNegative(start: int, end: int, callback: int -> real)
    requires start < end
    requires callback(start) >= 0.0
    requires forall i, j :: start <= i < j < end ==> callback(j) <= callback(i)
    ensures var r := Bisect(start, end, callback);
      (forall j :: start <= j <= r ==> callback(j) >= 0.0) && (forall j :: r < j < end ==> callback(j) < 0.0)
  {
    var r := Bisect(start, end, callback);
    assert callback(r) >= 0.0;
    forall j | start <= j <= r
      ensures callback(j) >= 0.0
    {
      if j < r {
        assert callback(r) <= callback(j);
      }
    }
    forall j | r < j < end
      ensures callback(j) < 0.0
    {
      if r + 1 < j {
        assert callback(j) <= callback(r + 1);
      }
    }
  }

  /** `binarySearch(start, end, callback)`: the loop as the timeline writes it. */
  method BinarySearch(start: int, end: int, callback: int -> real) returns (r: int)
    ensures r == Bisect(start, end, callback)
  {
    var lo, hi := start, end;
    while lo + 1 < hi
      invariant Bisect(lo, hi, callback) == Bisect(start, end, callback)
      decreases hi - lo
    {
      var mid := Midpoint(lo, hi);
      if callback(mid) < 0.0 {
        hi := mid;
      } else {
        lo := mid;
      }
    }
    r := lo;
  }
}
