// The time-based timeline: positions of times on the zoomed part of the
// timeline, stepping between paints inside the zoom window, and the playback
// loop, one animation frame at a time with the clock readings as inputs.

module Timeline {
  import opened Basics
  import opened Graphics

  /** `getVisiblePosition`: a missing or zero time and anything up to the zoom start are at 0. */
  function VisiblePosition(time: Option<real>, zoomStartTime: real, zoomEndTime: real): (r: real)
    ensures 0.0 <= r <= 1.0
    ensures time.None? || time == Some(0.0) ==> r == 0.0
    ensures time.Some? && time.value <= zoomStartTime ==> r == 0.0
    ensures time.Some? && time.value != 0.0 && zoomStartTime < time.value && time.value >= zoomEndTime ==> r == 1.0
    ensures time.Some? && time.value != 0.0 && zoomStartTime < time.value < zoomEndTime ==>
      0.0 < r < 1.0 && r * (zoomEndTime - zoomStartTime) == time.value - zoomStartTime
  {
    if time.None? || time.value == 0.0 then 0.0
    else if time.value <= zoomStartTime then 0.0
    else if time.value >= zoomEndTime then 1.0
    else (time.value - zoomStartTime) / (zoomEndTime - zoomStartTime)
  }

  /**
   * `getPixelDistance`: the absolute horizontal distance between two times,
   * the difference of their visible positions scaled by the overlay width.
   */
  function PixelDistance(to: Option<real>, from: Option<real>, zoomStartTime: real, zoomEndTime: real, overlayWidth: real): (r: real)
    ensures var d := VisiblePosition(to, zoomStartTime, zoomEndTime) - VisiblePosition(from, zoomStartTime, zoomEndTime);
      r >= 0.0 && (r == d * overlayWidth || r == -(d * overlayWidth))
    ensures overlayWidth >= 0.0 ==> r <= overlayWidth
    ensures to == from ==> r == 0.0
  {
    var pt, pf := VisiblePosition(to, zoomStartTime, zoomEndTime), VisiblePosition(from, zoomStartTime, zoomEndTime);
    var d := ScaledGap(pt - pf, overlayWidth);
    if d >= 0.0 then d else -d
  }

  /**
   * The gap between two positions, scaled to pixels: positions in [0, 1] are
   * at most one overlay width apart.
   */
  function ScaledGap(gap: real, width: real): (r: real)
    ensures -1.0 <= gap <= 1.0 && width >= 0.0 ==> -width <= r <= width
    ensures gap == 0.0 ==> r == 0.0
  {
    if -1.0 <= gap <= 1.0 && width >= 0.0 then
      if gap >= 0.0 then
        assert gap * width <= 1.0 * width;
        gap * width
      else
        assert (-gap) * width <= 1.0 * width;
        gap * width
    else gap * width
  }

  /** The distance does not depend on the order of its arguments. */
  lemma PixelDistanceSymmetric(a: Option<real>, b: Option<real>, zs: real, ze: real, w: real)
    ensures PixelDistance(a, b, zs, ze, w) == PixelDistance(b, a, zs, ze, w)
  {
    var pa, pb := VisiblePosition(a, zs, ze), VisiblePosition(b, zs, ze);
    assert (pa - pb) * w == -((pb - pa) * w);
  }

  /**
   * `getLeftOffset`: the marker's left edge as a percentage, never negative.
   * A zero overlay width makes the marker width infinite, and the offset 0.
   */
  function LeftOffset(time: Option<real>, zoomStartTime: real, zoomEndTime: real, overlayWidth: real, markerWidth: real): (r: real)
    requires markerWidth > 0.0
    ensures r >= 0.0
    ensures overlayWidth == 0.0 ==> r == 0.0
    ensures overlayWidth != 0.0 ==>
      r >= VisiblePosition(time, zoomStartTime, zoomEndTime) * 100.0 - markerWidth / overlayWidth * 50.0
  {
    if overlayWidth == 0.0 then 0.0
    else
      var position := VisiblePosition(time, zoomStartTime, zoomEndTime) * 100.0;
      var width := markerWidth / overlayWidth * 100.0;
      if position - width / 2.0 >= 0.0 then position - width / 2.0 else 0.0
  }

  /** A call to the store's `seek` with a point and the time to show. */
  datatype SeekCall = SeekCall(point: string, time: real)

  /** `seek`: a missing (empty) point is ignored. */
  function SeekEffect(point: string, time: real): (r: seq<SeekCall>)
    ensures point == "" <==> r == []
    ensures r != [] ==> r == [SeekCall(point, time)]
  {
    if point == "" then [] else [SeekCall(point, time)]
  }

  /**
   * `seekTime`: nothing for a missing time; otherwise a seek to the point of
   * the most recent paint or mouse event, but with the exact target time.
   */
  function SeekTimeEffect(mostRecent: real -> Option<TimedEntry>, target: Option<real>): (r: seq<SeekCall>)
    ensures target.None? ==> r == []
    ensures |r| <= 1
    ensures r != [] ==> (target.Some? && mostRecent(target.value).Some? &&
      r[0] == SeekCall(mostRecent(target.value).value.point, target.value))
  {
    if target.None? then []
    else match mostRecent(target.value)
      case None => []
      case Some(e) => SeekEffect(e.point, target.value)
  }

  /**
   * The time `goToNextPaint` seeks to: no move at the zoom start or when there
   * is no earlier paint; otherwise the earlier paint's time, but not before
   * the zoom start.  Despite its name it moves backward.
   */
  function NextPaintTarget(paints: seq<TimedEntry>, currentTime: real, zoomStartTime: real): (r: Result<Option<real>>)
    ensures currentTime == zoomStartTime ==> r == Ok(None)
    ensures r.Ok? && r.value.Some? ==> zoomStartTime <= r.value.value
    ensures r.Ok? && r.value.Some? && zoomStartTime < currentTime ==> r.value.value < currentTime
    ensures currentTime != zoomStartTime ==> (r.Throws? <==> PreviousPaintEvent(paints, currentTime).Throws?)
    ensures currentTime != zoomStartTime ==> (r == Ok(None) <==> PreviousPaintEvent(paints, currentTime) == Ok(None))
    ensures r.Ok? && r.value.Some? ==>
      var p := PreviousPaintEvent(paints, currentTime);
      p.Ok? && p.value.Some? && p.value.value.time <= r.value.value &&
      (r.value.value == p.value.value.time || r.value.value == zoomStartTime)
  {
    if currentTime == zoomStartTime then Ok(None)
    else match PreviousPaintEvent(paints, currentTime)
      case Throws(e) => Throws(e)
      case Ok(None) => Ok(None)
      case Ok(Some(previous)) => Ok(Some(if previous.time >= zoomStartTime then previous.time else zoomStartTime))
  }

  /**
   * The time `goToPrevPaint` seeks to: no move at the zoom end or when there is
   * no later paint; otherwise the later paint's time, but not after the zoom
   * end.  Despite its name it moves forward.
   */
  function PrevPaintTarget(paints: seq<TimedEntry>, currentTime: real, zoomEndTime: real): (r: Option<real>)
    ensures currentTime == zoomEndTime ==> r.None?
    ensures r.Some? ==> r.value <= zoomEndTime
    ensures r.Some? && currentTime < zoomEndTime ==> currentTime < r.value
    ensures currentTime != zoomEndTime ==> (r.Some? <==> NextPaintEvent(paints, currentTime).Some?)
    ensures r.Some? ==>
      var n := NextPaintEvent(paints, currentTime);
      n.Some? && r.value <= n.value.time && (r.value == n.value.time || r.value == zoomEndTime)
  {
    if currentTime == zoomEndTime then None
    else match NextPaintEvent(paints, currentTime)
      case None => None
      case Some(next) => Some(if next.time <= zoomEndTime then next.time else zoomEndTime)
  }

  /**
   * The time of the next graphics to prepare: the next paint or mouse event
   * after `currentTime`, or the zoom end when there is none (or its time is 0).
   */
  function NextGraphicsTime(paints: seq<TimedEntry>, mice: seq<TimedEntry>, currentTime: real, zoomEndTime: real): (r: real)
    ensures r == zoomEndTime || currentTime < r
  {
    match NextPaintOrMouseEvent(paints, mice, currentTime)
    case Some(e) => if e.time != 0.0 then e.time else zoomEndTime
    case None => zoomEndTime
  }

  /** Playback as the store records it; `time` is set once the first frame has run. */
  datatype Playback = Playback(startTime: real, startDate: real, time: Option<real>)

  /** The playback loop's own variables. */
  datatype PlaybackLoop = PlaybackLoop(startTime: real, startDate: real, endTime: real, nextGraphicsTime: real)

  datatype FrameOutcome =
    | Stopped                                      // playback was cleared: the loop returns
    | Finished                                     // the end was passed: clamped and cleared
    | NextFrame(loop: PlaybackLoop)                // wait for the next animation frame
    | AwaitGraphics(loop: PlaybackLoop, currentTime: real, currentDate: real)

  /** The time the loop computes from the clock: the start plus the elapsed wall time. */
  function FrameTime(loop: PlaybackLoop, now: real): real
  {
    loop.startTime + (now - loop.startDate)
  }

  /** The timeline component's view of the store, with `seek` calls as a log. */
  class Timeline {
    var currentTime: real
    var playback: Option<Playback>
    var zoomStartTime: real
    var zoomEndTime: real
    var seeks: seq<SeekCall>

    constructor(currentTime: real, zoomStartTime: real, zoomEndTime: real)
      ensures this.currentTime == currentTime && playback.None? && seeks == []
      ensures this.zoomStartTime == zoomStartTime && this.zoomEndTime == zoomEndTime
    {
      this.currentTime := currentTime;
      this.zoomStartTime := zoomStartTime;
      this.zoomEndTime := zoomEndTime;
      playback := None;
      seeks := [];
    }

    method Seek(point: string, time: real)
      modifies this
      ensures seeks == old(seeks) + SeekEffect(point, time)
      ensures currentTime == old(currentTime) && playback == old(playback)
      ensures zoomStartTime == old(zoomStartTime) && zoomEndTime == old(zoomEndTime)
    {
      if point != "" {
        seeks := seeks + [SeekCall(point, time)];
      }
    }

    method SeekTime(mostRecent: real -> Option<TimedEntry>, target: Option<real>)
      modifies this
      ensures seeks == old(seeks) + SeekTimeEffect(mostRecent, target)
      ensures currentTime == old(currentTime) && playback == old(playback)
      ensures zoomStartTime == old(zoomStartTime) && zoomEndTime == old(zoomEndTime)
    {
      if target.Some? {
        var event := mostRecent(target.value);
        if event.Some? {
          Seek(event.value.point, target.value);
        }
      }
    }

    /** `goToNextPaint`; `false` when the missing most recent paint was dereferenced. */
    method GoToNextPaint(paints: seq<TimedEntry>, mostRecent: real -> Option<TimedEntry>) returns (ok: bool)
      modifies this
      ensures var target := NextPaintTarget(paints, old(currentTime), old(zoomStartTime));
        (ok <==> target.Ok?) &&
        seeks == old(seeks) + (if ok && target.value.Some? then SeekTimeEffect(mostRecent, target.value) else [])
      ensures currentTime == old(currentTime) && playback == old(playback)
      ensures zoomStartTime == old(zoomStartTime) && zoomEndTime == old(zoomEndTime)
    {
      var target := NextPaintTarget(paints, currentTime, zoomStartTime);
      if target.Throws? {
        return false;
      }
      if target.value.Some? {
        SeekTime(mostRecent, target.value);
      }
      ok := true;
    }

    /** `goToPrevPaint`. */
    method GoToPrevPaint(paints: seq<TimedEntry>, mostRecent: real -> Option<TimedEntry>)
      modifies this
      ensures seeks == old(seeks) + SeekTimeEffect(mostRecent, PrevPaintTarget(paints, old(currentTime), old(zoomEndTime)))
      ensures currentTime == old(currentTime) && playback == old(playback)
      ensures zoomStartTime == old(zoomStartTime) && zoomEndTime == old(zoomEndTime)
    {
      SeekTime(mostRecent, PrevPaintTarget(paints, currentTime, zoomEndTime));
    }

    /**
     * `startPlayback` at wall time `now`: playback restarts at time 0 (not at
     * the zoom start) when the current time is at or past the zoom end.
     * Returns the loop's variables after its first `prepareNextGraphics`.
     */
    method StartPlayback(now: real, paints: seq<TimedEntry>, mice: seq<TimedEntry>) returns (loop: PlaybackLoop)
      modifies this
      ensures var start := if old(currentTime) >= old(zoomEndTime) then 0.0 else old(currentTime);
        currentTime == start && playback == Some(Playback(start, now, None)) &&
        loop == PlaybackLoop(start, now, old(zoomEndTime), NextGraphicsTime(paints, mice, start, old(zoomEndTime)))
      ensures seeks == old(seeks) && zoomStartTime == old(zoomStartTime) && zoomEndTime == old(zoomEndTime)
    {
      var startTime := if currentTime >= zoomEndTime then 0.0 else currentTime;
      playback := Some(Playback(startTime, now, None));
      currentTime := startTime;
      loop := PlaybackLoop(startTime, now, zoomEndTime, NextGraphicsTime(paints, mice, startTime, zoomEndTime));
    }

    /** `stopPlayback`: seek to the playback's last time if it is running, and clear it. */
    method StopPlayback(mostRecent: real -> Option<TimedEntry>)
      modifies this
      ensures playback.None?
      ensures old(playback).Some? ==> seeks == old(seeks) + SeekTimeEffect(mostRecent, old(playback).value.time)
      ensures old(playback).None? ==> seeks == old(seeks)
      ensures currentTime == old(currentTime) && zoomStartTime == old(zoomStartTime) && zoomEndTime == old(zoomEndTime)
    {
      if playback.Some? {
        SeekTime(mostRecent, playback.value.time);
      }
      playback := None;
    }

    /**
     * One animation frame of the playback loop, at wall time `now`.  A cleared
     * playback stops the loop untouched; a time past the end seeks to the end,
     * clamps the current time and clears playback; otherwise the time advances
     * and, once the next graphics are due, the loop waits for them.
     */
    method PlaybackFrame(loop: PlaybackLoop, now: real, mostRecent: real -> Option<TimedEntry>) returns (out: FrameOutcome)
      modifies this
      ensures old(playback).None? ==> out == Stopped && currentTime == old(currentTime) && playback == old(playback) && seeks == old(seeks)
      ensures old(playback).Some? && FrameTime(loop, now) > loop.endTime ==>
        out == Finished && currentTime == loop.endTime && playback.None? &&
        seeks == old(seeks) + SeekTimeEffect(mostRecent, Some(loop.endTime))
      ensures old(playback).Some? && FrameTime(loop, now) <= loop.endTime ==>
        currentTime == FrameTime(loop, now) &&
        playback == Some(Playback(loop.startTime, loop.startDate, Some(currentTime))) && seeks == old(seeks) &&
        out == (if currentTime >= loop.nextGraphicsTime then AwaitGraphics(loop, currentTime, now) else NextFrame(loop))
      ensures old(playback).Some? ==> currentTime <= loop.endTime
      ensures zoomStartTime == old(zoomStartTime) && zoomEndTime == old(zoomEndTime)
    {
      if playback.None? {
        return Stopped;
      }
      var time := FrameTime(loop, now);
      if time > loop.endTime {
        SeekTime(mostRecent, Some(loop.endTime));
        currentTime := loop.endTime;
        playback := None;
        return Finished;
      }
      currentTime := time;
      playback := Some(Playback(loop.startTime, loop.startDate, Some(time)));
      out := if time >= loop.nextGraphicsTime then AwaitGraphics(loop, time, now) else NextFrame(loop);
    }

    /**
     * The rest of a frame once the awaited graphics arrive: a cleared playback
     * stops the loop; a wait of more than 100 ms (between `currentDate` and
     * `checkDate`) re-baselines the loop at `rebaseDate`; then the next
     * graphics time is prepared.
     */
    method GraphicsArrived(loop: PlaybackLoop, time: real, currentDate: real, checkDate: real, rebaseDate: real,
                           paints: seq<TimedEntry>, mice: seq<TimedEntry>) returns (out: FrameOutcome)
      modifies this
      ensures old(playback).None? ==> out == Stopped && currentTime == old(currentTime) && playback == old(playback)
      ensures old(playback).Some? ==>
        var rebased := checkDate - currentDate > 100.0;
        var loop' := if rebased then loop.(startTime := time, startDate := rebaseDate) else loop;
        out == NextFrame(loop'.(nextGraphicsTime := NextGraphicsTime(paints, mice, time, old(zoomEndTime)))) &&
        (rebased ==> currentTime == time && playback == Some(Playback(time, rebaseDate, Some(time)))) &&
        (!rebased ==> currentTime == old(currentTime) && playback == old(playback))
      ensures old(playback).Some? && checkDate - currentDate > 100.0 ==>
        out.NextFrame? && forall now :: FrameTime(out.loop, now) == time + (now - rebaseDate)
      ensures seeks == old(seeks) && zoomStartTime == old(zoomStartTime) && zoomEndTime == old(zoomEndTime)
    {
      if playback.None? {
        return Stopped;
      }
      var next := loop;
      if checkDate - currentDate > 100.0 {
        next := next.(startTime := time, startDate := rebaseDate);
        currentTime := time;
        playback := Some(Playback(time, rebaseDate, Some(time)));
      }
      out := NextFrame(next.(nextGraphicsTime := NextGraphicsTime(paints, mice, time, zoomEndTime)));
    }
  }
}
