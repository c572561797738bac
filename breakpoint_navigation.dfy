// The navigation bar under a logged breakpoint: the hits before and after the
// current execution point, and the status text.  Points are the protocol's
// numeric strings, compared as numbers (`compareNumericStrings`, `BigInt`),
// so they are modelled by the numbers they denote.

module BreakpointNavigation {
  import opened Basics

  /** One hit of the breakpoint's analysis. */
  datatype AnalysisPoint = AnalysisPoint(point: nat, time: real)

  /** A `seek(point, time, true)` call. */
  datatype SeekCall = SeekCall(point: nat, time: real, openSource: bool)

  /** `navigateToPoint`: seeks to the hit, and does nothing without one. */
  function NavigateToPoint(hit: Option<AnalysisPoint>): (r: seq<SeekCall>)
    ensures hit.None? <==> r == []
    ensures hit.Some? ==> r == [SeekCall(hit.value.point, hit.value.time, true)]
  {
    if hit.Some? then [SeekCall(hit.value.point, hit.value.time, true)] else []
  }

  /** `isEmpty`: the analysis finished without hits. */
  function IsEmpty(analysisPoints: Option<seq<AnalysisPoint>>): (r: bool)
    ensures r <==> analysisPoints.Some? && |analysisPoints.value| == 0
  {
    analysisPoints.Some? && |analysisPoints.value| == 0
  }

  /** `findLast(points, p => p.point < executionPoint)`. */
  function FindLastBefore(points: seq<AnalysisPoint>, executionPoint: nat): (r: Option<nat>)
    ensures r.Some? ==> r.value < |points| && points[r.value].point < executionPoint
    ensures r.Some? ==> forall j :: r.value < j < |points| ==> points[j].point >= executionPoint
    ensures r.None? ==> forall j :: 0 <= j < |points| ==> points[j].point >= executionPoint
  {
    if points == [] then None
    else if points[|points| - 1].point < executionPoint then Some(|points| - 1)
    else FindLastBefore(points[..|points| - 1], executionPoint)
  }

  /** `find(points, p => p.point > executionPoint)`. */
  function FindFirstAfter(points: seq<AnalysisPoint>, executionPoint: nat): (r: Option<nat>)
    ensures r.Some? ==> r.value < |points| && points[r.value].point > executionPoint
    ensures r.Some? ==> forall j :: 0 <= j < r.value ==> points[j].point <= executionPoint
    ensures r.None? ==> forall j :: 0 <= j < |points| ==> points[j].point <= executionPoint
  {
    if points == [] then None
    else if points[0].point > executionPoint then Some(0)
    else
      match FindFirstAfter(points[1..], executionPoint)
      case None => None
      case Some(k) => Some(k + 1)
  }

  function At(points: seq<AnalysisPoint>, k: Option<nat>): Option<AnalysisPoint>
  {
    if k.Some? && k.value < |points| then Some(points[k.value]) else None
  }

  /** The hits the previous and next buttons go to; both are missing without a point or hits. */
  function PrevNext(executionPoint: Option<nat>, analysisPoints: Option<seq<AnalysisPoint>>): (r: (Option<AnalysisPoint>, Option<AnalysisPoint>))
    ensures executionPoint.None? || analysisPoints.None? || |analysisPoints.value| == 0 ==> r == (None, None)
  {
    if executionPoint.Some? && analysisPoints.Some? && |analysisPoints.value| > 0 then
      var points := analysisPoints.value;
      (At(points, FindLastBefore(points, executionPoint.value)), At(points, FindFirstAfter(points, executionPoint.value)))
    else (None, None)
  }

  predicate SortedByPoint(points: seq<AnalysisPoint>)
  {
    forall i, j :: 0 <= i < j < |points| ==> points[i].point <= points[j].point
  }

  /**
   * With the hits in point order, "previous" is the latest hit before the
   * current point and "next" the earliest hit after it.
   */
  lemma PrevNextAreNearest(executionPoint: nat, points: seq<AnalysisPoint>)
    requires |points| > 0 && SortedByPoint(points)
    ensures var (prev, next) := PrevNext(Some(executionPoint), Some(points));
      (prev.Some? <==> exists i :: 0 <= i < |points| && points[i].point < executionPoint) &&
      (next.Some? <==> exists i :: 0 <= i < |points| && points[i].point > executionPoint) &&
      (prev.Some? ==> (prev.value in points && prev.value.point < executionPoint &&
        forall i :: 0 <= i < |points| && points[i].point < executionPoint ==> points[i].point <= prev.value.point)) &&
      (next.Some? ==> (next.value in points && next.value.point > executionPoint &&
        forall i :: 0 <= i < |points| && points[i].point > executionPoint ==> next.value.point <= points[i].point))
  {
  }

  /** The number of hits at or before the current point. */
  function HitsSoFar(points: seq<AnalysisPoint>, executionPoint: nat): (k: nat)
    ensures k <= |points|
    ensures k == 0 <==> forall i :: 0 <= i < |points| ==> points[i].point > executionPoint
    ensures k == |points| <==> forall i :: 0 <= i < |points| ==> points[i].point <= executionPoint
  {
    if points == [] then 0
    else
      var rest := HitsSoFar(points[1..], executionPoint);
      assert forall i :: 1 <= i < |points| ==> points[i] == points[1..][i - 1];
      (if points[0].point <= executionPoint then 1 else 0) + rest
  }

  /** `BreakpointNavigationStatus`: "Indexing", then "Loading", then "No hits", then "k/n". */
  function Status(indexed: bool, executionPoint: nat, analysisPoints: Option<seq<AnalysisPoint>>): (status: string)
    ensures !indexed ==> status == "Indexing"
    ensures indexed && analysisPoints.None? ==> status == "Loading"
    ensures indexed && analysisPoints.Some? && |analysisPoints.value| == 0 ==> status == "No hits"
  {
    if !indexed then "Indexing"
    else if analysisPoints.None? then "Loading"
    else if |analysisPoints.value| == 0 then "No hits"
    else NatToString(HitsSoFar(analysisPoints.value, executionPoint)) + "/" + NatToString(|analysisPoints.value|)
  }

  /** A counting status reads back as two numbers, the hits so far first, never more than the total. */
  lemma StatusCounts(executionPoint: nat, points: seq<AnalysisPoint>)
    requires |points| > 0
    ensures var parts := Split(Status(true, executionPoint, Some(points)), '/');
      |parts| == 2 && AllDigits(parts[0]) && AllDigits(parts[1]) &&
      ParseDigits(parts[0]) == HitsSoFar(points, executionPoint) &&
      ParseDigits(parts[1]) == |points| &&
      ParseDigits(parts[0]) <= ParseDigits(parts[1])
  {
    var k, n := NatToString(HitsSoFar(points, executionPoint)), NatToString(|points|);
    DigitsExclude(k, '/');
    DigitsExclude(n, '/');
    assert Join([k, n], '/') == k + "/" + n;
    JoinSplit([k, n], '/');
  }
}
