// Paint and mouse-event series of a recording, kept sorted by time, and the
// lookups the timeline makes in them (the entry at or before a time, the entry
// after it, the closer of two, the mouse and click overlay at a time).

module Graphics {
  import opened Basics
  import opened Bisection

  datatype EntryInfo =
    | Paint(paintHash: Option<string>)
    | MouseEvent(kind: string, clientX: int, clientY: int)

  /** An element of one of the time-sorted series. */
  datatype TimedEntry = TimedEntry(point: string, time: real, info: EntryInfo)

  /** The beginning of the recording, which is not painted. */
  const Seed := TimedEntry("0", 0.0, Paint(None))

  /** How recently (in ms) a click must have happened to be drawn. */
  const ClickThresholdMs: real := 200.0

  predicate Sorted(a: seq<TimedEntry>)
  {
    forall i, j :: 0 <= i < j < |a| ==> a[i].time <= a[j].time
  }

  function TimeCallback(a: seq<TimedEntry>, time: real): int -> real
  {
    // The bisection only probes indices strictly inside the array.
    i => if 0 <= i < |a| then time - a[i].time else 0.0
  }

  /** `mostRecentIndex`: an index at or before `time`, whose successor is after it. */
  function MostRecentIndex(a: seq<TimedEntry>, time: real): (r: Option<nat>)
    ensures r.None? <==> (|a| == 0 || time < a[0].time)
    ensures r.Some? ==> r.value < |a| && a[r.value].time <= time
    ensures r.Some? && r.value + 1 < |a| ==> time < a[r.value + 1].time
  {
    if |a| == 0 || time < a[0].time then None
    else Some(Bisect(0, |a|, TimeCallback(a, time)))
  }

  /** On a sorted series the index is the last entry at or before `time`. */
  lemma MostRecentIndexIsLast(a: seq<TimedEntry>, time: real)
    requires Sorted(a)
    ensures MostRecentIndex(a, time).Some? ==>
      var i := MostRecentIndex(a, time).value;
      (forall j :: 0 <= j <= i ==> a[j].time <= time) && (forall j :: i < j < |a| ==> time < a[j].time)
    ensures MostRecentIndex(a, time).None? ==> forall j :: 0 <= j < |a| ==> time < a[j].time
  {
  }

  function MostRecentEntry(a: seq<TimedEntry>, time: real): (r: Option<TimedEntry>)
    ensures r.Some? <==> MostRecentIndex(a, time).Some?
    ensures r.Some? ==> r.value in a && r.value.time <= time
  {
    match MostRecentIndex(a, time)
    case None => None
    case Some(i) => Some(a[i])
  }

  /** `nextEntry`: the entry after the most recent one, or the first if none is. */
  function NextEntry(a: seq<TimedEntry>, time: real): (r: Option<TimedEntry>)
    ensures r.Some? ==> r.value in a && time < r.value.time
    ensures r.None? ==> |a| == 0 || a[|a| - 1].time <= time
  {
    match MostRecentIndex(a, time)
    case None => if |a| > 0 then Some(a[0]) else None
    case Some(i) => if i + 1 < |a| then Some(a[i + 1]) else None
  }

  /** On a sorted series `nextEntry` is the first entry strictly after `time`. */
  lemma NextEntryIsFirstAfter(a: seq<TimedEntry>, time: real)
    requires Sorted(a)
    ensures NextEntry(a, time).Some? ==>
      exists k :: 0 <= k < |a| && a[k] == NextEntry(a, time).value &&
        forall j :: 0 <= j < k ==> a[j].time <= time
  {
    MostRecentIndexIsLast(a, time);
    match MostRecentIndex(a, time)
    case None =>
      if |a| > 0 {
        assert a[0] == NextEntry(a, time).value;
      }
    case Some(i) =>
      if i + 1 < |a| {
        assert a[i + 1] == NextEntry(a, time).value;
      }
  }

  function Distance(time: real, e: TimedEntry): real
  {
    if time >= e.time then time - e.time else e.time - time
  }

  /** `closerEntry`: a missing side yields the other; ties go to the second. */
  function CloserEntry(time: real, e1: Option<TimedEntry>, e2: Option<TimedEntry>): (r: Option<TimedEntry>)
    ensures r.None? <==> e1.None? && e2.None?
    ensures r == e1 || r == e2
    ensures e1.Some? && e2.Some? ==>
      Distance(time, r.value) <= Distance(time, e1.value) && Distance(time, r.value) <= Distance(time, e2.value)
    ensures e1.Some? && e2.Some? && Distance(time, e1.value) == Distance(time, e2.value) ==> r == e2
  {
    if e1.None? then e2
    else if e2.None? then e1
    else if Distance(time, e1.value) < Distance(time, e2.value) then e1
    else e2
  }

  function ClosestEntry(a: seq<TimedEntry>, time: real): (r: Option<TimedEntry>)
    ensures r.None? <==> |a| == 0
    ensures r.Some? ==> r.value in a
  {
    CloserEntry(time, MostRecentEntry(a, time), NextEntry(a, time))
  }

  /** On a sorted series `closestEntry` is at least as close as every entry. */
  lemma {:induction false} ClosestEntryIsClosest(a: seq<TimedEntry>, time: real)
    requires Sorted(a) && |a| > 0
    ensures forall j :: 0 <= j < |a| ==> Distance(time, ClosestEntry(a, time).value) <= Distance(time, a[j])
  {
    MostRecentIndexIsLast(a, time);
    var r := ClosestEntry(a, time).value;
    forall j | 0 <= j < |a|
      ensures Distance(time, r) <= Distance(time, a[j])
    {
      match MostRecentIndex(a, time)
      case None =>
        assert NextEntry(a, time) == Some(a[0]);
        assert a[0].time <= a[j].time || j == 0;
      case Some(i) =>
        assert MostRecentEntry(a, time) == Some(a[i]);
        if j <= i {
          assert j == i || a[j].time <= a[i].time;
        } else {
          assert NextEntry(a, time) == Some(a[i + 1]);
          assert j == i + 1 || a[i + 1].time <= a[j].time;
        }
    }
  }

  /**
   * `insertEntrySorted`: appended when it is not earlier than the last entry;
   * otherwise placed after the entry that `searchIn` reports as most recent
   * (as written, `searchIn` is always the paint series), or first.
   * JavaScript's `splice` clamps an index past the end to the end.
   */
  function InsertEntrySorted(a: seq<TimedEntry>, e: TimedEntry, searchIn: seq<TimedEntry>): (r: seq<TimedEntry>)
    ensures multiset(r) == multiset(a) + multiset{e}
    ensures |a| == 0 || a[|a| - 1].time <= e.time ==> r == a + [e]
  {
    if |a| == 0 || a[|a| - 1].time <= e.time then a + [e]
    else
      match MostRecentIndex(searchIn, e.time)
      case None => [e] + a
      case Some(i) =>
        var k := if i + 1 < |a| then i + 1 else |a|;
        assert a == a[..k] + a[k..];
        a[..k] + [e] + a[k..]
  }

  /** Inserting into a sorted series while searching that same series keeps it sorted. */
  lemma {:induction false} InsertKeepsSorted(a: seq<TimedEntry>, e: TimedEntry)
    requires Sorted(a)
    ensures Sorted(InsertEntrySorted(a, e, a))
  {
    var r := InsertEntrySorted(a, e, a);
    if |a| == 0 || a[|a| - 1].time <= e.time {
      SortedInsertAt(a, |a|, e);
      assert a[..|a|] + [e] + a[|a|..] == a + [e];
    } else {
      MostRecentIndexIsLast(a, e.time);
      match MostRecentIndex(a, e.time)
      case None =>
        SortedInsertAt(a, 0, e);
        assert a[..0] + [e] + a[0..] == [e] + a;
      case Some(i) =>
        SortedInsertAt(a, i + 1, e);
    }
  }

  /** Inserting never moves the first entry of a sorted series later. */
  lemma InsertKeepsFirstBound(a: seq<TimedEntry>, e: TimedEntry, bound: real)
    requires Sorted(a) && |a| > 0 && a[0].time <= bound
    ensures |InsertEntrySorted(a, e, a)| > 0 && InsertEntrySorted(a, e, a)[0].time <= bound
  {
    var r := InsertEntrySorted(a, e, a);
    InsertKeepsSorted(a, e);
    assert a[0] in multiset(r);
    var k :| 0 <= k < |r| && r[k] == a[0];
  }

  /** Putting an entry between the entries no later than it and those no earlier keeps a series sorted. */
  lemma SortedInsertAt(a: seq<TimedEntry>, k: nat, e: TimedEntry)
    requires Sorted(a) && k <= |a|
    requires forall j :: 0 <= j < k ==> a[j].time <= e.time
    requires forall j :: k <= j < |a| ==> e.time <= a[j].time
    ensures Sorted(a[..k] + [e] + a[k..])
  {
    var r := a[..k] + [e] + a[k..];
    assert forall j :: 0 <= j < k ==> r[j] == a[j];
    assert r[k] == e;
    assert forall j :: k < j < |r| ==> r[j] == a[j - 1];
  }

  /** The series as written can lose its order: a mouse event earlier than the last one. */
  lemma MouseInsertCanUnsort()
    ensures var mice := [TimedEntry("2", 5.0, MouseEvent("mousemove", 0, 0))];
      var late := TimedEntry("1", 1.0, MouseEvent("mousemove", 0, 0));
      Sorted(mice) && !Sorted(InsertEntrySorted(mice, late, [Seed]))
  {
    var mice := [TimedEntry("2", 5.0, MouseEvent("mousemove", 0, 0))];
    var late := TimedEntry("1", 1.0, MouseEvent("mousemove", 0, 0));
    assert MostRecentIndex([Seed], 1.0) == Some(0);
    var r := InsertEntrySorted(mice, late, [Seed]);
    assert r == mice + [late];
    assert r[0].time > r[1].time;
  }

  datatype ScreenShot = ScreenShot(mimeType: string, hash: string)
  datatype PaintRecord = PaintRecord(point: string, time: real, screenShots: seq<ScreenShot>)
  datatype MouseRecord = MouseRecord(point: string, time: real, kind: string, clientX: int, clientY: int)

  /** The hash of the first JPEG screenshot, which the paint handler dereferences. */
  function JpegHash(shots: seq<ScreenShot>): (r: Option<string>)
    ensures r.Some? <==> exists i :: 0 <= i < |shots| && shots[i].mimeType == "image/jpeg"
    ensures r.Some? ==> exists i :: (0 <= i < |shots| && shots[i] == ScreenShot("image/jpeg", r.value) &&
      forall j :: 0 <= j < i ==> shots[j].mimeType != "image/jpeg")
  {
    if |shots| == 0 then None
    else if shots[0].mimeType == "image/jpeg" then Some(shots[0].hash)
    else
      var r := JpegHash(shots[1..]);
      assert forall i :: 1 <= i < |shots| ==> shots[i] == shots[1..][i - 1];
      r
  }

  /**
   * The paint series after a batch: each paint is inserted in turn, and a paint
   * without a JPEG screenshot throws, leaving the earlier ones inserted.
   * The flag says whether the batch completed.
   */
  function AddPaints(points: seq<TimedEntry>, paints: seq<PaintRecord>): (seq<TimedEntry>, bool)
    decreases |paints|
  {
    if |paints| == 0 then (points, true)
    else
      var (prev, ok) := AddPaints(points, paints[..|paints| - 1]);
      var p := paints[|paints| - 1];
      if !ok then (prev, false)
      else match JpegHash(p.screenShots)
        case None => (prev, false)
        case Some(h) => (InsertEntrySorted(prev, TimedEntry(p.point, p.time, Paint(Some(h))), prev), true)
  }

  lemma {:induction false} AddPaintsStopsAtFailure(points: seq<TimedEntry>, paints: seq<PaintRecord>, i: nat)
    requires i <= |paints|
    requires !AddPaints(points, paints[..i]).1
    ensures AddPaints(points, paints) == AddPaints(points, paints[..i])
    decreases |paints| - i
  {
    if i < |paints| {
      assert paints[..i + 1][..i] == paints[..i];
      AddPaintsStopsAtFailure(points, paints, i + 1);
    } else {
      assert paints[..i] == paints;
    }
  }

  /** A batch of paints keeps the paint series sorted, whether or not it completes. */
  lemma {:induction false} AddPaintsKeepsSorted(points: seq<TimedEntry>, paints: seq<PaintRecord>)
    requires Sorted(points)
    ensures Sorted(AddPaints(points, paints).0)
    decreases |paints|
  {
    if |paints| > 0 {
      AddPaintsKeepsSorted(points, paints[..|paints| - 1]);
      var prev := AddPaints(points, paints[..|paints| - 1]).0;
      var p := paints[|paints| - 1];
      match JpegHash(p.screenShots)
      case None =>
      case Some(h) => InsertKeepsSorted(prev, TimedEntry(p.point, p.time, Paint(Some(h))));
    }
  }

  /**
   * The mouse and click series after a batch of mouse events: every event goes
   * into the mouse series and a `mousedown` also into the click series.  The
   * insertion position is searched in the paint series as written, or in the
   * target series when `searchTarget` is set.
   */
  function AddMouseEvents(mice: seq<TimedEntry>, clicks: seq<TimedEntry>, paints: seq<TimedEntry>,
                          events: seq<MouseRecord>, searchTarget: bool): (seq<TimedEntry>, seq<TimedEntry>)
    decreases |events|
  {
    if |events| == 0 then (mice, clicks)
    else
      var (m, c) := AddMouseEvents(mice, clicks, paints, events[..|events| - 1], searchTarget);
      var ev := events[|events| - 1];
      var e := TimedEntry(ev.point, ev.time, MouseEvent(ev.kind, ev.clientX, ev.clientY));
      var m' := InsertEntrySorted(m, e, if searchTarget then m else paints);
      var c' := if ev.kind == "mousedown" then InsertEntrySorted(c, e, if searchTarget then c else paints) else c;
      (m', c')
  }

  predicate AllMouseEvents(a: seq<TimedEntry>)
  {
    forall i :: 0 <= i < |a| ==> a[i].info.MouseEvent?
  }

  predicate AllClicks(a: seq<TimedEntry>)
  {
    forall i :: 0 <= i < |a| ==> a[i].info.MouseEvent? && a[i].info.kind == "mousedown"
  }

  function MouseDownCount(events: seq<MouseRecord>): nat
  {
    if |events| == 0 then 0
    else MouseDownCount(events[..|events| - 1]) + (if events[|events| - 1].kind == "mousedown" then 1 else 0)
  }

  /**
   * Every event lands in the mouse series, only clicks land in the click
   * series, and with `searchTarget` both series stay sorted.
   */
  lemma {:induction false} AddMouseEventsInvariant(mice: seq<TimedEntry>, clicks: seq<TimedEntry>, paints: seq<TimedEntry>,
                                                   events: seq<MouseRecord>, searchTarget: bool)
    requires AllMouseEvents(mice) && AllClicks(clicks)
    requires searchTarget ==> Sorted(mice) && Sorted(clicks)
    ensures var (m, c) := AddMouseEvents(mice, clicks, paints, events, searchTarget);
      AllMouseEvents(m) && AllClicks(c) && |m| == |mice| + |events| && |c| == |clicks| + MouseDownCount(events)
      && (searchTarget ==> Sorted(m) && Sorted(c))
    decreases |events|
  {
    if |events| > 0 {
      var init := events[..|events| - 1];
      AddMouseEventsInvariant(mice, clicks, paints, init, searchTarget);
      var (m, c) := AddMouseEvents(mice, clicks, paints, init, searchTarget);
      var ev := events[|events| - 1];
      var e := TimedEntry(ev.point, ev.time, MouseEvent(ev.kind, ev.clientX, ev.clientY));
      var m' := InsertEntrySorted(m, e, if searchTarget then m else paints);
      MultisetMembers(m, e, m');
      if searchTarget {
        InsertKeepsSorted(m, e);
      }
      if ev.kind == "mousedown" {
        var c' := InsertEntrySorted(c, e, if searchTarget then c else paints);
        MultisetMembers(c, e, c');
        if searchTarget {
          InsertKeepsSorted(c, e);
        }
      }
    }
  }

  lemma MultisetMembers(a: seq<TimedEntry>, e: TimedEntry, r: seq<TimedEntry>)
    requires multiset(r) == multiset(a) + multiset{e}
    ensures |r| == |a| + 1
    ensures forall i :: 0 <= i < |r| ==> r[i] == e || r[i] in a
  {
    assert |multiset(r)| == |multiset(a)| + 1;
    forall i | 0 <= i < |r|
      ensures r[i] == e || r[i] in a
    {
      assert r[i] in multiset(r);
    }
  }

  /** The three series the recording's graphics are looked up in. */
  class GraphicsStore {
    var paintPoints: seq<TimedEntry>
    var mouseEvents: seq<TimedEntry>
    var mouseClickEvents: seq<TimedEntry>
    /** false reproduces the source, which positions every insertion by the paint series. */
    const searchTarget: bool

    ghost predicate Valid()
      reads this
    {
      |paintPoints| > 0 && Sorted(paintPoints) && paintPoints[0].time <= 0.0
      && AllMouseEvents(mouseEvents) && AllClicks(mouseClickEvents)
      && (searchTarget ==> Sorted(mouseEvents) && Sorted(mouseClickEvents))
    }

    constructor(searchTarget: bool)
      ensures Valid()
      ensures paintPoints == [Seed] && mouseEvents == [] && mouseClickEvents == []
      ensures this.searchTarget == searchTarget
    {
      paintPoints := [Seed];
      mouseEvents := [];
      mouseClickEvents := [];
      this.searchTarget := searchTarget;
    }

    /** `onPaints`: insert each paint; stops (throws) at a paint without a JPEG screenshot. */
    method OnPaints(paints: seq<PaintRecord>) returns (completed: bool)
      requires Valid()
      modifies this
      ensures Valid()
      ensures (paintPoints, completed) == AddPaints(old(paintPoints), paints)
      ensures mouseEvents == old(mouseEvents) && mouseClickEvents == old(mouseClickEvents)
      ensures forall time :: time >= 0.0 ==> PreviousPaintEvent(paintPoints, time).Ok?
    {
      ghost var start := paintPoints;
      var i := 0;
      while i < |paints|
        invariant 0 <= i <= |paints|
        invariant AddPaints(start, paints[..i]) == (paintPoints, true)
        invariant Valid()
        invariant mouseEvents == old(mouseEvents) && mouseClickEvents == old(mouseClickEvents)
      {
        var p := paints[i];
        assert paints[..i + 1][..i] == paints[..i];
        var hash := JpegHash(p.screenShots);
        if hash.None? {
          AddPaintsStopsAtFailure(start, paints, i + 1);
          return false;
        }
        InsertKeepsSorted(paintPoints, TimedEntry(p.point, p.time, Paint(Some(hash.value))));
        InsertKeepsFirstBound(paintPoints, TimedEntry(p.point, p.time, Paint(Some(hash.value))), 0.0);
        paintPoints := InsertEntrySorted(paintPoints, TimedEntry(p.point, p.time, Paint(Some(hash.value))), paintPoints);
        i := i + 1;
      }
      assert paints[..i] == paints;
      completed := true;
    }

    /** `onMouseEvents`: insert every event, and every `mousedown` also as a click. */
    method OnMouseEvents(events: seq<MouseRecord>)
      requires Valid()
      modifies this
      ensures Valid()
      ensures (mouseEvents, mouseClickEvents) ==
        AddMouseEvents(old(mouseEvents), old(mouseClickEvents), paintPoints, events, searchTarget)
      ensures paintPoints == old(paintPoints)
    {
      ghost var m0, c0 := mouseEvents, mouseClickEvents;
      for i := 0 to |events|
        invariant (mouseEvents, mouseClickEvents) == AddMouseEvents(m0, c0, paintPoints, events[..i], searchTarget)
        invariant paintPoints == old(paintPoints)
      {
        var ev := events[i];
        assert events[..i + 1][..i] == events[..i];
        var e := TimedEntry(ev.point, ev.time, MouseEvent(ev.kind, ev.clientX, ev.clientY));
        mouseEvents := InsertEntrySorted(mouseEvents, e, if searchTarget then mouseEvents else paintPoints);
        if ev.kind == "mousedown" {
          mouseClickEvents := InsertEntrySorted(mouseClickEvents, e, if searchTarget then mouseClickEvents else paintPoints);
        }
      }
      assert events[..|events|] == events;
      AddMouseEventsInvariant(m0, c0, paintPoints, events, searchTarget);
    }
  }

  function ClosestPaintOrMouseEvent(paints: seq<TimedEntry>, mice: seq<TimedEntry>, time: real): (r: Option<TimedEntry>)
    ensures r.None? <==> |paints| == 0 && |mice| == 0
    ensures r.Some? ==> r.value in paints || r.value in mice
  {
    CloserEntry(time, ClosestEntry(paints, time), ClosestEntry(mice, time))
  }

  /** `nextPaintOrMouseEvent`: the closer of the next paint and the next mouse event. */
  function NextPaintOrMouseEvent(paints: seq<TimedEntry>, mice: seq<TimedEntry>, time: real): (r: Option<TimedEntry>)
    ensures r.Some? ==> (r.value in paints || r.value in mice) && time < r.value.time
    ensures r.None? <==> NextEntry(paints, time).None? && NextEntry(mice, time).None?
  {
    CloserEntry(time, NextEntry(paints, time), NextEntry(mice, time))
  }

  /** On sorted series the combined next event is the earliest event after `time`. */
  lemma NextPaintOrMouseEventIsEarliest(paints: seq<TimedEntry>, mice: seq<TimedEntry>, time: real)
    requires Sorted(paints) && Sorted(mice)
    ensures NextPaintOrMouseEvent(paints, mice, time).Some? ==>
      var t := NextPaintOrMouseEvent(paints, mice, time).value.time;
      (forall j :: 0 <= j < |paints| && time < paints[j].time ==> t <= paints[j].time) &&
      (forall j :: 0 <= j < |mice| && time < mice[j].time ==> t <= mice[j].time)
  {
    NextEntryIsFirstAfterAll(paints, time);
    NextEntryIsFirstAfterAll(mice, time);
  }

  lemma NextEntryIsFirstAfterAll(a: seq<TimedEntry>, time: real)
    requires Sorted(a)
    ensures forall j :: 0 <= j < |a| && time < a[j].time ==> NextEntry(a, time).Some? && NextEntry(a, time).value.time <= a[j].time
  {
    MostRecentIndexIsLast(a, time);
  }

  function NextPaintEvent(paints: seq<TimedEntry>, time: real): (r: Option<TimedEntry>)
    ensures r == NextEntry(paints, time)
  {
    NextEntry(paints, time)
  }

  /**
   * `previousPaintEvent`: the most recent paint, or, when it is exactly at
   * `time`, the most recent paint a millisecond earlier.  A missing paint is
   * dereferenced and throws.
   */
  function PreviousPaintEvent(paints: seq<TimedEntry>, time: real): (r: Result<Option<TimedEntry>>)
    ensures r.Throws? <==> |paints| == 0 || time < paints[0].time
    ensures r.Ok? && r.value.Some? ==> r.value.value in paints && r.value.value.time < time
  {
    match MostRecentEntry(paints, time)
    case None => Throws("entry is null")
    case Some(e) => if e.time == time then Ok(MostRecentEntry(paints, time - 1.0)) else Ok(Some(e))
  }

  datatype Mouse = Mouse(x: int, y: int, click: Option<(int, int)>)

  /** What `getGraphicsAtTime` draws: nothing, or a screenshot with an optional mouse. */
  datatype Graphics = NoGraphics | Screen(point: string, paintHash: string, mouse: Option<Mouse>)

  function MouseOverlay(mice: seq<TimedEntry>, clicks: seq<TimedEntry>, time: real): (r: Option<Mouse>)
    requires AllMouseEvents(mice) && AllMouseEvents(clicks)
    ensures r.Some? <==> MostRecentEntry(mice, time).Some?
    ensures r.Some? ==> (r.value.click.Some? <==>
      MostRecentEntry(clicks, time).Some? && time - ClickThresholdMs <= MostRecentEntry(clicks, time).value.time)
  {
    match MostRecentEntry(mice, time)
    case None => None
    case Some(m) =>
      var click := MostRecentEntry(clicks, time);
      if click.Some? && click.value.time + ClickThresholdMs >= time then
        Some(Mouse(m.info.clientX, m.info.clientY, Some((click.value.info.clientX, click.value.info.clientY))))
      else
        Some(Mouse(m.info.clientX, m.info.clientY, None))
  }

  /**
   * `getGraphicsAtTime`: the most recent paint must exist (it is dereferenced);
   * a paint without a hash draws nothing; otherwise the screenshot with the
   * mouse at the most recent mouse event and a click drawn only when the most
   * recent click is at most `ClickThresholdMs` old.
   */
  function GraphicsAtTime(paints: seq<TimedEntry>, mice: seq<TimedEntry>, clicks: seq<TimedEntry>, time: real): (r: Result<Graphics>)
    requires AllMouseEvents(mice) && AllMouseEvents(clicks)
    ensures r.Throws? <==> MostRecentIndex(paints, time).None?
    ensures r.Ok? ==> var p := paints[MostRecentIndex(paints, time).value];
      p.time <= time &&
      (r.value.NoGraphics? <==> !(p.info.Paint? && p.info.paintHash.Some?)) &&
      (r.value.Screen? ==> p.info == Paint(Some(r.value.paintHash)) && p.point == r.value.point)
    ensures r.Ok? && r.value.Screen? ==> r.value.mouse == MouseOverlay(mice, clicks, time)
  {
    match MostRecentIndex(paints, time)
    case None => Throws("paint entry is undefined")
    case Some(i) =>
      var p := paints[i];
      if !p.info.Paint? || p.info.paintHash.None? then Ok(NoGraphics)
      else Ok(Screen(p.point, p.info.paintHash.value, MouseOverlay(mice, clicks, time)))
  }
}
