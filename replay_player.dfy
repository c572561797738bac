// The replay player of the timeline: the checkpoint table that maps execution
// points to times, navigation between checkpoints clamped to the zoomed
// region, point-by-point playback, drag-to-zoom, and the position of a point
// on the visible part of the timeline.

module ReplayPlayer {
  import opened Basics
  import opened ExecutionPoints

  const FirstCheckpointId: nat := 1
  const FirstCheckpointExecutionPoint := Point(FirstCheckpointId, 0, None)

  /** A point with the time it was reached (a widget event, or a checkpoint's own entry). */
  datatype TimedPoint = TimedPoint(point: Point, time: real)

  datatype CheckpointInfo = CheckpointInfo(point: Point, time: real, widgetEvents: seq<TimedPoint>)

  /** The table indexed by checkpoint id; entry 0 is unused. */
  type CheckpointTable = seq<Option<CheckpointInfo>>

  const InitialCheckpoints: CheckpointTable :=
    [None, Some(CheckpointInfo(FirstCheckpointExecutionPoint, 0.0, []))]

  /** The table is never empty and its last entry is known (it only grows). */
  predicate ValidTable(t: CheckpointTable)
  {
    |t| >= 2 && t[|t| - 1].Some?
  }

  predicate Known(t: CheckpointTable, c: nat)
  {
    c < |t| && t[c].Some?
  }

  function RecordingEndTime(t: CheckpointTable): real
    requires ValidTable(t)
  {
    t[|t| - 1].value.time
  }

  lemma InitialTable()
    ensures ValidTable(InitialCheckpoints) && RecordingEndTime(InitialCheckpoints) == 0.0
    ensures Known(InitialCheckpoints, FirstCheckpointId) && !Known(InitialCheckpoints, 0)
  {
  }

  function AsTimed(info: CheckpointInfo): TimedPoint
  {
    TimedPoint(info.point, info.time)
  }

  /** One widget event tightening the window around the query point. */
  function ScanStep(prev: TimedPoint, next: TimedPoint, p: Point, info: TimedPoint): (TimedPoint, TimedPoint)
  {
    (if Precedes(prev.point, info.point) && !Precedes(p, info.point) then info else prev,
     if Precedes(info.point, next.point) && Precedes(p, info.point) then info else next)
  }

  /** The window after scanning the widget events in order. */
  function Scan(prev: TimedPoint, next: TimedPoint, p: Point, events: seq<TimedPoint>): (TimedPoint, TimedPoint)
    decreases |events|
  {
    if |events| == 0 then (prev, next)
    else
      var (a, b) := Scan(prev, next, p, events[..|events| - 1]);
      ScanStep(a, b, p, events[|events| - 1])
  }

  /**
   * The scan only moves the previous end later, never past the query point,
   * and ends at the latest such event; it only moves the next end earlier, to
   * events strictly after the query point, and ends at the earliest such event.
   */
  lemma {:induction false} ScanTightens(prev: TimedPoint, next: TimedPoint, p: Point, events: seq<TimedPoint>)
    ensures var (a, b) := Scan(prev, next, p, events);
      (a == prev || (a in events && Precedes(prev.point, a.point) && !Precedes(p, a.point)))
      && (b == next || (b in events && Precedes(b.point, next.point) && Precedes(p, b.point)))
      && (forall e :: e in events && Precedes(prev.point, e.point) && !Precedes(p, e.point) ==> !Precedes(a.point, e.point))
      && (forall e :: e in events && Precedes(e.point, next.point) && Precedes(p, e.point) ==> !Precedes(e.point, b.point))
    decreases |events|
  {
    if |events| > 0 {
      var init := events[..|events| - 1];
      var info := events[|events| - 1];
      assert events == init + [info];
      ScanTightens(prev, next, p, init);
      var (a0, b0) := Scan(prev, next, p, init);
      var (a, b) := ScanStep(a0, b0, p, info);
      if a == info && a != a0 {
        if a0 != prev {
          PrecedesTransitive(prev.point, a0.point, info.point);
        }
        forall e | e in init && Precedes(prev.point, e.point) && !Precedes(p, e.point)
          ensures !Precedes(info.point, e.point)
        {
          if Precedes(info.point, e.point) {
            PrecedesTransitive(a0.point, info.point, e.point);
          }
        }
      }
      PrecedesIrreflexive(info.point);
      if b == info && b != b0 {
        if b0 != next {
          PrecedesTransitive(info.point, b0.point, next.point);
        }
        forall e | e in init && Precedes(e.point, next.point) && Precedes(p, e.point)
          ensures !Precedes(e.point, info.point)
        {
          if Precedes(e.point, info.point) {
            PrecedesTransitive(e.point, info.point, b0.point);
          }
        }
      }
    }
  }

  /**
   * The checkpoint entries around a point and the widget-event window, when
   * both the point's checkpoint and its successor are known.
   */
  function Window(t: CheckpointTable, p: Point): Option<(TimedPoint, TimedPoint)>
  {
    if Known(t, p.checkpoint) && Known(t, p.checkpoint + 1) then
      var info := t[p.checkpoint].value;
      Some(Scan(AsTimed(info), AsTimed(t[p.checkpoint + 1].value), p, info.widgetEvents))
    else None
  }

  /**
   * `executionPointTime`.  As written (`interpolate` false) the fraction reads
   * a `progress` field the entries do not have, is NaN, and the previous end's
   * time is returned.  With `interpolate` the fraction uses the points'
   * progress, as evidently intended, guarding a zero-width window.
   */
  function ExecutionPointTimeSpec(t: CheckpointTable, p: Point, interpolate: bool): real
    requires ValidTable(t)
  {
    if !Known(t, p.checkpoint) then RecordingEndTime(t)
    else if !Known(t, p.checkpoint + 1) then t[p.checkpoint].value.time
    else
      var (prev, next) := Window(t, p).value;
      if PointEquals(p, prev.point) || !interpolate then prev.time
      else
        var span := next.point.progress as real - prev.point.progress as real;
        if span == 0.0 then prev.time
        else prev.time + (p.progress as real - prev.point.progress as real) / span * (next.time - prev.time)
  }

  /** A time that some checkpoint or some widget event of the table carries. */
  ghost predicate IsKnownTime(t: CheckpointTable, r: real)
  {
    exists c :: 0 <= c < |t| && t[c].Some? &&
      (t[c].value.time == r || exists e :: e in t[c].value.widgetEvents && e.time == r)
  }

  /** As written, every point's time is the time of some known checkpoint or widget event. */
  lemma ExecutionPointTimeIsKnown(t: CheckpointTable, p: Point)
    requires ValidTable(t)
    ensures IsKnownTime(t, ExecutionPointTimeSpec(t, p, false))
    ensures !Known(t, p.checkpoint) ==> ExecutionPointTimeSpec(t, p, false) == RecordingEndTime(t)
    ensures Known(t, p.checkpoint) && !Known(t, p.checkpoint + 1) ==>
      ExecutionPointTimeSpec(t, p, false) == t[p.checkpoint].value.time
  {
    var r := ExecutionPointTimeSpec(t, p, false);
    if !Known(t, p.checkpoint) {
      assert t[|t| - 1].value.time == r;
    } else if !Known(t, p.checkpoint + 1) {
      assert t[p.checkpoint].value.time == r;
    } else {
      var info := t[p.checkpoint].value;
      ScanTightens(AsTimed(info), AsTimed(t[p.checkpoint + 1].value), p, info.widgetEvents);
      var (prev, next) := Window(t, p).value;
      if prev == AsTimed(info) {
        assert t[p.checkpoint].value.time == r;
      } else {
        assert prev in info.widgetEvents && prev.time == r;
      }
    }
  }

  /** With interpolation, a point whose progress lies inside the window gets a time inside it. */
  lemma InterpolatedTimeWithinWindow(t: CheckpointTable, p: Point)
    requires ValidTable(t) && Window(t, p).Some?
    requires var (prev, next) := Window(t, p).value;
      prev.point.progress <= p.progress <= next.point.progress && prev.time <= next.time
    ensures var (prev, next) := Window(t, p).value;
      prev.time <= ExecutionPointTimeSpec(t, p, true) <= next.time
  {
    var (prev, next) := Window(t, p).value;
    var span := next.point.progress as real - prev.point.progress as real;
    var r := ExecutionPointTimeSpec(t, p, true);
    if PointEquals(p, prev.point) || span == 0.0 {
      assert r == prev.time;
    } else {
      var x := p.progress as real - prev.point.progress as real;
      var d := next.time - prev.time;
      FractionBounds(x, span, d);
      var q := x / span * d;
      assert 0.0 <= q <= d;
      assert r == prev.time + q;
    }
  }

  lemma FractionBounds(x: real, span: real, d: real)
    requires 0.0 <= x <= span && span != 0.0 && 0.0 <= d
    ensures 0.0 <= x / span * d <= d
  {
    var f := x / span;
    assert f * span == x;
    assert f <= 1.0;
    assert (1.0 - f) * d >= 0.0;
  }

  /** The fraction is never used as written: halfway through a checkpoint the time is still its start. */
  lemma ExecutionPointTimeNeverInterpolates()
    ensures var t := InitialCheckpoints + [Some(CheckpointInfo(Point(2, 10, None), 1000.0, []))];
      ExecutionPointTimeSpec(t, Point(1, 5, None), false) == 0.0 &&
      ExecutionPointTimeSpec(t, Point(1, 5, None), true) == 500.0
  {
    var t := InitialCheckpoints + [Some(CheckpointInfo(Point(2, 10, None), 1000.0, []))];
    assert Window(t, Point(1, 5, None)) ==
      Some((TimedPoint(Point(1, 0, None), 0.0), TimedPoint(Point(2, 10, None), 1000.0)));
  }

  /** A point clamped so it never follows `end`. */
  function ClampBefore(p: Point, end: Point): (r: Point)
    ensures !Precedes(end, r)
    ensures r == p || r == end
    ensures !Precedes(end, p) ==> r == p
  {
    PrecedesIrreflexive(end);
    if Precedes(end, p) then end else p
  }

  /** A point clamped so it never precedes `start`. */
  function ClampAfter(p: Point, start: Point): (r: Point)
    ensures !Precedes(r, start)
    ensures r == p || r == start
    ensures !Precedes(p, start) ==> r == p
  {
    PrecedesIrreflexive(start);
    if Precedes(p, start) then start else p
  }

  /**
   * The seek target of `doPrevious`: `Ok(None)` is the early return at the
   * first checkpoint, `Throws` a dereferenced missing checkpoint.  As written
   * (`compareCheckpointPoint` false) the test of whether the point is its
   * checkpoint's own point compares a number with a point and never holds.
   */
  function PreviousTarget(t: CheckpointTable, point: Point, zoomStart: Point, compareCheckpointPoint: bool): (r: Result<Option<Point>>)
    ensures r.Ok? && r.value.Some? ==> !Precedes(r.value.value, zoomStart)
    ensures !compareCheckpointPoint ==> (r.Ok? <==> Known(t, point.checkpoint)) && (r.Ok? ==> r.value.Some?)
  {
    var c := point.checkpoint;
    if compareCheckpointPoint && !Known(t, c) then Throws("checkpoint info is undefined")
    else
      var atCheckpoint := compareCheckpointPoint && t[c].value.point == point;
      if atCheckpoint && c == FirstCheckpointId then Ok(None)
      else
        var c' := if atCheckpoint then c - 1 else c as int;
        if c' < 0 || !Known(t, c') then Throws("checkpoint info is undefined")
        else Ok(Some(ClampAfter(t[c'].value.point, zoomStart)))
  }

  /** As written, stepping back from the start of checkpoint 2 stays put instead of reaching checkpoint 1. */
  lemma PreviousStaysAtCheckpointStart()
    ensures var t := InitialCheckpoints + [Some(CheckpointInfo(Point(2, 0, None), 1000.0, []))];
      PreviousTarget(t, Point(2, 0, None), FirstCheckpointExecutionPoint, false) == Ok(Some(Point(2, 0, None))) &&
      PreviousTarget(t, Point(2, 0, None), FirstCheckpointExecutionPoint, true) == Ok(Some(FirstCheckpointExecutionPoint))
  {
  }

  /** With the intended comparison, the target precedes a point that starts a later checkpoint. */
  lemma IntendedPreviousMovesBack(t: CheckpointTable, point: Point, zoomStart: Point)
    requires Known(t, point.checkpoint) && t[point.checkpoint].value.point == point
    requires point.checkpoint > FirstCheckpointId && Known(t, point.checkpoint - 1)
    requires Precedes(t[point.checkpoint - 1].value.point, point)
    requires !Precedes(point, zoomStart) && point != zoomStart
    ensures var r := PreviousTarget(t, point, zoomStart, true);
      r.Ok? && r.value.Some? && Precedes(r.value.value, point)
  {
    var prevPoint := t[point.checkpoint - 1].value.point;
    PrecedesTotal(point, zoomStart);
    if Precedes(prevPoint, zoomStart) {
      assert ClampAfter(prevPoint, zoomStart) == zoomStart;
    }
  }

  /** The seek target of `doNext`: `Ok(None)` at the zoom end. */
  function NextTarget(t: CheckpointTable, point: Point, zoomEnd: Point): (r: Result<Option<Point>>)
    ensures r.Ok? && r.value.None? <==> PointEquals(point, zoomEnd)
    ensures r.Throws? <==> !PointEquals(point, zoomEnd) && !Known(t, point.checkpoint + 1)
    ensures r.Ok? && r.value.Some? ==> !Precedes(zoomEnd, r.value.value)
  {
    if PointEquals(point, zoomEnd) then Ok(None)
    else if !Known(t, point.checkpoint + 1) then Throws("checkpoint info is undefined")
    else Ok(Some(ClampBefore(t[point.checkpoint + 1].value.point, zoomEnd)))
  }

  /** The first widget event after `point` that is at least 100 ms later than `time`. */
  function FirstLaterEvent(events: seq<TimedPoint>, point: Point, time: real): (r: Option<nat>)
    ensures r.Some? ==> r.value < |events| && Precedes(point, events[r.value].point) && events[r.value].time >= time + 100.0
    ensures r.Some? ==> forall j :: 0 <= j < r.value ==> !(Precedes(point, events[j].point) && events[j].time >= time + 100.0)
    ensures r.None? ==> forall j :: 0 <= j < |events| ==> !(Precedes(point, events[j].point) && events[j].time >= time + 100.0)
  {
    if |events| == 0 then None
    else if Precedes(point, events[0].point) && events[0].time >= time + 100.0 then Some(0)
    else
      match FirstLaterEvent(events[1..], point, time)
      case None => None
      case Some(i) => Some(i + 1)
  }

  /**
   * `nextPlaybackPoint`: nothing at the zoom end; otherwise the first widget
   * event of the point's checkpoint that follows it by at least 100 ms, else
   * the next checkpoint's point, clamped to the zoom end.
   */
  function NextPlaybackPointSpec(t: CheckpointTable, point: Point, zoomEnd: Point, interpolate: bool): (r: Result<Option<Point>>)
    requires ValidTable(t)
    ensures r.Ok? && r.value.None? <==> PointEquals(point, zoomEnd)
    ensures r.Throws? <==> !PointEquals(point, zoomEnd) && !(Known(t, point.checkpoint) && Known(t, point.checkpoint + 1))
    ensures r.Ok? && r.value.Some? ==> !Precedes(zoomEnd, r.value.value)
  {
    if PointEquals(point, zoomEnd) then Ok(None)
    else if !Known(t, point.checkpoint + 1) || !Known(t, point.checkpoint) then Throws("checkpoint info is undefined")
    else
      var time := ExecutionPointTimeSpec(t, point, interpolate);
      var events := t[point.checkpoint].value.widgetEvents;
      var candidate := match FirstLaterEvent(events, point, time)
        case Some(i) => events[i].point
        case None => t[point.checkpoint + 1].value.point;
      Ok(Some(ClampBefore(candidate, zoomEnd)))
  }

  /** The playback step lands on a point strictly after the current one, unless clamped to the zoom end. */
  lemma NextPlaybackPointAdvances(t: CheckpointTable, point: Point, zoomEnd: Point, interpolate: bool)
    requires ValidTable(t)
    requires NextPlaybackPointSpec(t, point, zoomEnd, interpolate).Ok?
    requires Known(t, point.checkpoint + 1) && Precedes(point, t[point.checkpoint + 1].value.point)
    ensures var r := NextPlaybackPointSpec(t, point, zoomEnd, interpolate).value;
      r.Some? ==> Precedes(point, r.value) || r.value == zoomEnd
  {
  }

  /** `getVisiblePosition` given the times: 0 before the zoom start, 1 from the zoom end on. */
  function VisiblePosition(time: real, zoomStartTime: real, zoomEndTime: real): (r: real)
    ensures 0.0 <= r <= 1.0
    ensures time < zoomStartTime ==> r == 0.0
    ensures zoomStartTime <= time && time >= zoomEndTime ==> r == 1.0
    ensures zoomStartTime <= time < zoomEndTime ==> r * (zoomEndTime - zoomStartTime) == time - zoomStartTime
  {
    if time < zoomStartTime then 0.0
    else if time >= zoomEndTime then 1.0
    else (time - zoomStartTime) / (zoomEndTime - zoomStartTime)
  }

  /** Later times are never drawn to the left of earlier ones. */
  lemma VisiblePositionMonotone(t1: real, t2: real, zs: real, ze: real)
    requires t1 <= t2
    ensures VisiblePosition(t1, zs, ze) <= VisiblePosition(t2, zs, ze)
  {
    if zs <= t1 && t2 < ze {
      DivMonotone(t1 - zs, t2 - zs, ze - zs);
    }
  }

  lemma DivMonotone(a: real, b: real, d: real)
    requires a <= b && d > 0.0
    ensures a / d <= b / d
  {
    assert b / d - a / d == (b - a) / d;
  }

  /** Space-separated class names: each true flag appends its key, in order. */
  function ClassNameSpec(name: string, bools: seq<(string, bool)>): string
    decreases |bools|
  {
    if |bools| == 0 then name
    else
      var prev := ClassNameSpec(name, bools[..|bools| - 1]);
      var (key, on) := bools[|bools| - 1];
      if on then prev + " " + key else prev
  }

  /** The class list starts with the name and contains every enabled key after a space. */
  lemma {:induction false} ClassNameContainsEnabledKeys(name: string, bools: seq<(string, bool)>)
    ensures IsPrefix(name, ClassNameSpec(name, bools))
    ensures forall i :: 0 <= i < |bools| && bools[i].1 ==> Includes(ClassNameSpec(name, bools), " " + bools[i].0)
    ensures (forall i :: 0 <= i < |bools| ==> !bools[i].1) ==> ClassNameSpec(name, bools) == name
    decreases |bools|
  {
    if |bools| > 0 {
      var init := bools[..|bools| - 1];
      ClassNameContainsEnabledKeys(name, init);
      var prev := ClassNameSpec(name, init);
      var (key, on) := bools[|bools| - 1];
      if on {
        var r := prev + " " + key;
        assert r[..|name|] == prev[..|name|];
        forall i | 0 <= i < |bools| && bools[i].1
          ensures Includes(r, " " + bools[i].0)
        {
          if i == |bools| - 1 {
            assert r[|prev|..][..|" " + key|] == " " + key;
          } else {
            assert init[i] == bools[i];
            var k :| 0 <= k <= |prev| && IsPrefix(" " + bools[i].0, prev[k..]);
            assert r[k..][..|" " + bools[i].0|] == prev[k..][..|" " + bools[i].0|];
          }
        }
      } else {
        assert forall i :: 0 <= i < |init| ==> init[i] == bools[i];
      }
    }
  }

  /** `classname`: the loop over the flags. */
  method ClassName(name: string, bools: seq<(string, bool)>) returns (r: string)
    ensures r == ClassNameSpec(name, bools)
  {
    r := name;
    for i := 0 to |bools|
      invariant r == ClassNameSpec(name, bools[..i])
    {
      assert bools[..i + 1][..i] == bools[..i];
      if bools[i].1 {
        r := r + " " + bools[i].0;
      }
    }
    assert bools[..|bools|] == bools;
  }

  /**
   * The player component's state, with the replay thread's `timeWarp` and
   * `paint` calls as logs.  `intended` chooses the evidently intended time
   * interpolation and checkpoint comparison over the code as written.
   */
  class Player {
    const intended: bool
    var checkpoints: CheckpointTable
    var executionPoint: Point
    var recordingEndpoint: Point
    var hoverPoint: Option<Point>
    var startDragPoint: Option<Point>
    var seeking: bool
    var recording: bool
    var paused: bool
    var playback: Option<Point>
    var zoomStartpoint: Point
    var zoomEndpoint: Point
    var timeWarps: seq<Point>
    var paints: seq<Point>

    ghost predicate Valid()
      reads this
    {
      ValidTable(checkpoints)
    }

    constructor(intended: bool)
      ensures this.intended == intended
      ensures Valid() && checkpoints == InitialCheckpoints
      ensures executionPoint == FirstCheckpointExecutionPoint && recordingEndpoint == FirstCheckpointExecutionPoint
      ensures zoomStartpoint == FirstCheckpointExecutionPoint && zoomEndpoint == FirstCheckpointExecutionPoint
      ensures hoverPoint == None && startDragPoint == None && playback == None
      ensures !seeking && recording && !paused
      ensures timeWarps == [] && paints == []
    {
      this.intended := intended;
      checkpoints := InitialCheckpoints;
      executionPoint := FirstCheckpointExecutionPoint;
      recordingEndpoint := FirstCheckpointExecutionPoint;
      hoverPoint := None;
      startDragPoint := None;
      seeking := false;
      recording := true;
      paused := false;
      playback := None;
      zoomStartpoint := FirstCheckpointExecutionPoint;
      zoomEndpoint := FirstCheckpointExecutionPoint;
      timeWarps := [];
      paints := [];
    }

    /** `executionPointTime`, scanning the widget events in a loop. */
    method ExecutionPointTime(p: Point) returns (r: real)
      requires Valid()
      ensures r == ExecutionPointTimeSpec(checkpoints, p, intended)
    {
      if !Known(checkpoints, p.checkpoint) {
        return checkpoints[|checkpoints| - 1].value.time;
      }
      var info := checkpoints[p.checkpoint].value;
      if !Known(checkpoints, p.checkpoint + 1) {
        return info.time;
      }
      var prev, next := AsTimed(info), AsTimed(checkpoints[p.checkpoint + 1].value);
      var events := info.widgetEvents;
      for i := 0 to |events|
        invariant (prev, next) == Scan(AsTimed(info), AsTimed(checkpoints[p.checkpoint + 1].value), p, events[..i])
      {
        assert events[..i + 1][..i] == events[..i];
        if Precedes(prev.point, events[i].point) && !Precedes(p, events[i].point) {
          prev := events[i];
        }
        if Precedes(events[i].point, next.point) && Precedes(p, events[i].point) {
          next := events[i];
        }
      }
      assert events[..|events|] == events;
      r := prev.time;
      if intended && !PointEquals(p, prev.point) {
        var span := next.point.progress as real - prev.point.progress as real;
        if span != 0.0 {
          r := prev.time + (p.progress as real - prev.point.progress as real) / span * (next.time - prev.time);
        }
      }
    }

    /** `getVisiblePosition`: a missing point is at 0. */
    function GetVisiblePosition(p: Option<Point>): (r: real)
      requires Valid()
      reads this
      ensures 0.0 <= r <= 1.0
      ensures p.None? ==> r == 0.0
    {
      if p.None? then 0.0
      else VisiblePosition(ExecutionPointTimeSpec(checkpoints, p.value, intended),
                           ExecutionPointTimeSpec(checkpoints, zoomStartpoint, intended),
                           ExecutionPointTimeSpec(checkpoints, zoomEndpoint, intended))
    }

    /**
     * `zoomedRegion`: both drag and hover points are needed and must be at
     * least 0.02 of the visible width apart; the start is the leftmost.
     */
    function ZoomedRegion(): (r: Option<(Point, Point)>)
      requires Valid()
      reads this
      ensures r.Some? <==> (startDragPoint.Some? && hoverPoint.Some? &&
        !(-0.02 < GetVisiblePosition(startDragPoint) - GetVisiblePosition(hoverPoint) < 0.02))
      ensures r.Some? ==> GetVisiblePosition(Some(r.value.0)) + 0.02 <= GetVisiblePosition(Some(r.value.1))
      ensures r.Some? ==> {r.value.0, r.value.1} == {startDragPoint.value, hoverPoint.value}
    {
      if startDragPoint.None? || hoverPoint.None? then None
      else
        var dragPos := GetVisiblePosition(startDragPoint);
        var hoverPos := GetVisiblePosition(hoverPoint);
        if -0.02 < dragPos - hoverPos < 0.02 then None
        else if dragPos < hoverPos then Some((startDragPoint.value, hoverPoint.value))
        else Some((hoverPoint.value, startDragPoint.value))
    }

    /** `seek`: nothing for a missing point; otherwise mark seeking and warp there. */
    method Seek(p: Option<Point>)
      modifies this
      ensures p.None? ==> timeWarps == old(timeWarps) && seeking == old(seeking)
      ensures p.Some? ==> timeWarps == old(timeWarps) + [p.value] && seeking
      ensures checkpoints == old(checkpoints) && executionPoint == old(executionPoint)
      ensures zoomStartpoint == old(zoomStartpoint) && zoomEndpoint == old(zoomEndpoint)
      ensures playback == old(playback) && paints == old(paints)
      ensures hoverPoint == old(hoverPoint) && startDragPoint == old(startDragPoint)
      ensures recordingEndpoint == old(recordingEndpoint) && recording == old(recording) && paused == old(paused)
    {
      if p.Some? {
        seeking := true;
        timeWarps := timeWarps + [p.value];
      }
    }

    /** `doPrevious`; `false` when a missing checkpoint was dereferenced. */
    method DoPrevious() returns (ok: bool)
      requires Valid()
      modifies this
      ensures Valid()
      ensures ok <==> PreviousTarget(old(checkpoints), old(executionPoint), old(zoomStartpoint), intended).Ok?
      ensures var target := PreviousTarget(old(checkpoints), old(executionPoint), old(zoomStartpoint), intended);
        (target.Ok? && target.value.Some? ==> timeWarps == old(timeWarps) + [target.value.value]) &&
        (target.Ok? && target.value.None? ==> timeWarps == old(timeWarps))
      ensures |timeWarps| > |old(timeWarps)| ==> !Precedes(timeWarps[|timeWarps| - 1], zoomStartpoint)
      ensures !ok ==> timeWarps == old(timeWarps)
      ensures seeking == (old(seeking) || |timeWarps| > |old(timeWarps)|)
      ensures zoomStartpoint == old(zoomStartpoint) && zoomEndpoint == old(zoomEndpoint) && executionPoint == old(executionPoint)
      ensures playback == old(playback) && paints == old(paints)
      ensures checkpoints == old(checkpoints) && recordingEndpoint == old(recordingEndpoint)
      ensures hoverPoint == old(hoverPoint) && startDragPoint == old(startDragPoint)
      ensures recording == old(recording) && paused == old(paused)
    {
      var target := PreviousTarget(checkpoints, executionPoint, zoomStartpoint, intended);
      if target.Throws? {
        return false;
      }
      Seek(target.value);
      ok := true;
    }

    /** `doNext`: nothing at the zoom end; the target never follows the zoom end. */
    method DoNext() returns (ok: bool)
      requires Valid()
      modifies this
      ensures Valid()
      ensures ok <==> NextTarget(old(checkpoints), old(executionPoint), old(zoomEndpoint)).Ok?
      ensures PointEquals(old(executionPoint), old(zoomEndpoint)) ==> timeWarps == old(timeWarps)
      ensures ok && !PointEquals(old(executionPoint), old(zoomEndpoint)) ==>
        timeWarps == old(timeWarps) + [NextTarget(old(checkpoints), old(executionPoint), old(zoomEndpoint)).value.value]
        && !Precedes(zoomEndpoint, timeWarps[|timeWarps| - 1])
      ensures !ok ==> timeWarps == old(timeWarps)
      ensures seeking == (old(seeking) || |timeWarps| > |old(timeWarps)|)
      ensures zoomStartpoint == old(zoomStartpoint) && zoomEndpoint == old(zoomEndpoint) && executionPoint == old(executionPoint)
      ensures playback == old(playback) && paints == old(paints)
      ensures checkpoints == old(checkpoints) && recordingEndpoint == old(recordingEndpoint)
      ensures hoverPoint == old(hoverPoint) && startDragPoint == old(startDragPoint)
      ensures recording == old(recording) && paused == old(paused)
    {
      var target := NextTarget(checkpoints, executionPoint, zoomEndpoint);
      if target.Throws? {
        return false;
      }
      Seek(target.value);
      ok := true;
    }

    /** `nextPlaybackPoint`, with the loop that stops at the first qualifying widget event. */
    method NextPlaybackPoint(point: Point) returns (r: Result<Option<Point>>)
      requires Valid()
      ensures r == NextPlaybackPointSpec(checkpoints, point, zoomEndpoint, intended)
    {
      if PointEquals(point, zoomEndpoint) {
        return Ok(None);
      }
      var time := ExecutionPointTime(point);
      if !Known(checkpoints, point.checkpoint + 1) || !Known(checkpoints, point.checkpoint) {
        return Throws("checkpoint info is undefined");
      }
      var nextPoint := checkpoints[point.checkpoint + 1].value.point;
      var events := checkpoints[point.checkpoint].value.widgetEvents;
      var i := 0;
      while i < |events|
        invariant 0 <= i <= |events|
        invariant forall j :: 0 <= j < i ==> !(Precedes(point, events[j].point) && events[j].time >= time + 100.0)
      {
        if Precedes(point, events[i].point) && events[i].time >= time + 100.0 {
          nextPoint := events[i].point;
          break;
        }
        i := i + 1;
      }
      ghost var first := FirstLaterEvent(events, point, time);
      assert i < |events| ==> first == Some(i);
      assert i == |events| ==> first == None;
      r := Ok(Some(ClampBefore(nextPoint, zoomEndpoint)));
    }

    /**
     * `replayPaintFinished`: when the painted point is the playback point,
     * paint and move to the next playback point, or stop there with a seek.
     */
    method ReplayPaintFinished(point: Point) returns (ok: bool)
      requires Valid()
      modifies this
      ensures Valid()
      ensures !(old(playback).Some? && PointEquals(point, old(playback).value)) ==>
        ok && playback == old(playback) && paints == old(paints) && timeWarps == old(timeWarps) && executionPoint == old(executionPoint)
      ensures old(playback).Some? && PointEquals(point, old(playback).value) ==>
        var next := NextPlaybackPointSpec(old(checkpoints), point, old(zoomEndpoint), intended);
        (ok <==> next.Ok?) &&
        (next.Ok? && next.value.Some? ==>
          paints == old(paints) + [next.value.value] && playback == next.value && executionPoint == next.value.value) &&
        (next.Ok? && next.value.Some? ==> timeWarps == old(timeWarps)) &&
        (next.Ok? && next.value.None? ==>
          timeWarps == old(timeWarps) + [point] && playback.None? && paints == old(paints) && executionPoint == old(executionPoint)) &&
        (next.Throws? ==>
          playback == old(playback) && paints == old(paints) && timeWarps == old(timeWarps) &&
          executionPoint == old(executionPoint))
      ensures seeking == (old(seeking) || |timeWarps| > |old(timeWarps)|)
      ensures zoomStartpoint == old(zoomStartpoint) && zoomEndpoint == old(zoomEndpoint)
      ensures checkpoints == old(checkpoints) && recordingEndpoint == old(recordingEndpoint)
      ensures hoverPoint == old(hoverPoint) && startDragPoint == old(startDragPoint)
      ensures recording == old(recording) && paused == old(paused)
    {
      ok := true;
      if playback.Some? && PointEquals(point, playback.value) {
        var next := NextPlaybackPoint(point);
        if next.Throws? {
          return false;
        }
        if next.value.Some? {
          paints := paints + [next.value.value];
          playback := next.value;
          executionPoint := next.value.value;
        } else {
          Seek(Some(point));
          playback := None;
        }
      }
    }

    /** `startPlayback`: paint the next playback point, or the zoom start when there is none. */
    method StartPlayback() returns (ok: bool)
      requires Valid()
      modifies this
      ensures Valid()
      ensures var next := NextPlaybackPointSpec(old(checkpoints), old(executionPoint), old(zoomEndpoint), intended);
        (ok <==> next.Ok?) &&
        (ok ==> var p := if next.value.Some? then next.value.value else old(zoomStartpoint);
          paints == old(paints) + [p] && playback == Some(p) && executionPoint == p)
      ensures !ok ==> paints == old(paints) && playback == old(playback) && executionPoint == old(executionPoint)
      ensures timeWarps == old(timeWarps) && zoomStartpoint == old(zoomStartpoint) && zoomEndpoint == old(zoomEndpoint)
      ensures seeking == old(seeking) && checkpoints == old(checkpoints) && recordingEndpoint == old(recordingEndpoint)
      ensures hoverPoint == old(hoverPoint) && startDragPoint == old(startDragPoint)
      ensures recording == old(recording) && paused == old(paused)
    {
      var next := NextPlaybackPoint(executionPoint);
      if next.Throws? {
        return false;
      }
      var p := if next.value.Some? then next.value.value else zoomStartpoint;
      paints := paints + [p];
      playback := Some(p);
      executionPoint := p;
      ok := true;
    }

    /** `stopPlayback`: seek to the playback point if there is one, and always clear it. */
    method StopPlayback()
      requires Valid()
      modifies this
      ensures Valid()
      ensures playback.None?
      ensures old(playback).Some? ==> timeWarps == old(timeWarps) + [old(playback).value] && seeking
      ensures old(playback).None? ==> timeWarps == old(timeWarps) && seeking == old(seeking)
      ensures executionPoint == old(executionPoint) && paints == old(paints)
      ensures zoomStartpoint == old(zoomStartpoint) && zoomEndpoint == old(zoomEndpoint)
      ensures checkpoints == old(checkpoints) && recordingEndpoint == old(recordingEndpoint)
      ensures hoverPoint == old(hoverPoint) && startDragPoint == old(startDragPoint)
      ensures recording == old(recording) && paused == old(paused)
    {
      Seek(playback);
      playback := None;
    }

    /** `doZoomOut`: the zoomed region becomes the whole recording. */
    method DoZoomOut()
      modifies this
      ensures zoomStartpoint == FirstCheckpointExecutionPoint && zoomEndpoint == old(recordingEndpoint)
      ensures checkpoints == old(checkpoints) && executionPoint == old(executionPoint) && timeWarps == old(timeWarps)
      ensures playback == old(playback) && paints == old(paints) && seeking == old(seeking)
      ensures hoverPoint == old(hoverPoint) && startDragPoint == old(startDragPoint)
      ensures recordingEndpoint == old(recordingEndpoint) && recording == old(recording) && paused == old(paused)
    {
      zoomStartpoint := FirstCheckpointExecutionPoint;
      zoomEndpoint := recordingEndpoint;
    }

    /**
     * `onPlayerMouseUp`.  The handler's state updates are batched, so the
     * zoomed region is computed from the drag point as it was before the
     * handler cleared it.  An accepted region becomes the zoom, and the player
     * seeks to its nearer edge when the current point lies outside it.
     */
    method OnPlayerMouseUp(altKey: bool, shiftKey: bool)
      requires Valid()
      modifies this
      ensures Valid()
      ensures startDragPoint.None?
      ensures old(ZoomedRegion()).Some? ==>
        var (s, e) := old(ZoomedRegion()).value;
        zoomStartpoint == s && zoomEndpoint == e &&
        (Precedes(old(executionPoint), s) ==> timeWarps == old(timeWarps) + [s]) &&
        (!Precedes(old(executionPoint), s) && Precedes(e, old(executionPoint)) ==> timeWarps == old(timeWarps) + [e]) &&
        (!Precedes(old(executionPoint), s) && !Precedes(e, old(executionPoint)) ==> timeWarps == old(timeWarps))
      ensures old(ZoomedRegion()).None? && altKey && old(hoverPoint).Some? ==>
        (if shiftKey then zoomEndpoint == old(hoverPoint).value && zoomStartpoint == old(zoomStartpoint)
         else zoomStartpoint == old(hoverPoint).value && zoomEndpoint == old(zoomEndpoint))
      ensures old(ZoomedRegion()).None? && altKey && old(hoverPoint).None? ==>
        zoomStartpoint == old(zoomStartpoint) && zoomEndpoint == old(zoomEndpoint)
      ensures old(ZoomedRegion()).None? && !altKey ==> zoomStartpoint == old(zoomStartpoint) && zoomEndpoint == old(zoomEndpoint)
      ensures old(ZoomedRegion()).None? && !altKey && old(startDragPoint).Some? && old(hoverPoint).Some? ==>
        seeking && timeWarps == old(timeWarps) + [old(hoverPoint).value]
      ensures old(ZoomedRegion()).None? && (altKey || old(startDragPoint).None? || old(hoverPoint).None?) ==>
        timeWarps == old(timeWarps)
      ensures seeking == (old(seeking) || |timeWarps| > |old(timeWarps)|)
      ensures executionPoint == old(executionPoint) && playback == old(playback) && paints == old(paints)
      ensures checkpoints == old(checkpoints) && recordingEndpoint == old(recordingEndpoint)
      ensures hoverPoint == old(hoverPoint) && recording == old(recording) && paused == old(paused)
    {
      var zoomInfo := ZoomedRegion();
      var drag, hover, exec := startDragPoint, hoverPoint, executionPoint;
      startDragPoint := None;
      if zoomInfo.Some? {
        var (s, e) := zoomInfo.value;
        zoomStartpoint := s;
        zoomEndpoint := e;
        if Precedes(exec, s) {
          Seek(Some(s));
        } else if Precedes(e, exec) {
          Seek(Some(e));
        }
      } else if altKey {
        if hover.Some? {
          if shiftKey {
            zoomEndpoint := hover.value;
          } else {
            zoomStartpoint := hover.value;
          }
        }
      } else if drag.Some? && hover.Some? {
        seeking := true;
        timeWarps := timeWarps + [hover.value];
      }
    }
  }
}
