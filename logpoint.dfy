// Logpoint bookkeeping: each log group owns the analyses created for it and
// the analysis points found so far; analysis results and points arriving from
// the replay server are routed to their group, and dropped once the group has
// been removed.  The socket is abstracted to an outbox of sent messages, and a
// request's waiter is the index of its message in the outbox.

module Logpoint {
  import opened Basics
  import opened JsValues

  datatype ScriptLocation = ScriptLocation(scriptId: string, line: nat, column: nat)

  /** The kind of mapper program an analysis runs (the program text is not modelled). */
  datatype Mapper =
    | LogpointMapper(text: string, condition: string)
    | EventMapper(getFrameworkListeners: bool)
    | ExceptionMapper
    | RandomMapper

  datatype Message =
    | CreateAnalysis(mapper: Mapper, effectful: bool)
    | AddLocation(analysisId: string, location: ScriptLocation, onStackFrame: Option<string>)
    | AddEventHandlerEntryPoints(analysisId: string, eventType: string)
    | AddExceptionPoints(analysisId: string)
    | AddRandomPoints(analysisId: string, numPoints: nat)
    | RunAnalysis(analysisId: string)
    | FindAnalysisPoints(analysisId: string)
    | ReleaseAnalysis(analysisId: string)

  datatype AnalysisPoint = AnalysisPoint(point: string, time: real)

  datatype AnalysisResult = AnalysisResult(key: string, time: real, hasFrameworkListeners: bool)

  /** Calls made to the console's logpoint handlers. */
  datatype HandlerCall =
    | OnResult(logGroupId: string, key: string, time: real)
    | OnPointLoading(logGroupId: string, point: string, time: real)
    | ClearLogpoint(logGroupId: string)
    | PointsWaiterCalled(logGroupId: string)

  /** A log group's entry: its analyses' waiters, its points, and whether a points waiter is set. */
  datatype LogpointInfo = LogpointInfo(analysisWaiters: seq<nat>, points: seq<AnalysisPoint>, hasPointsWaiter: bool)

  /** The log group an analysis reports to, if that group is still registered. */
  function RegisteredGroup(analysisGroups: map<string, string>, logpoints: map<string, LogpointInfo>, analysisId: string): (r: Option<string>)
    ensures r.Some? <==> analysisId in analysisGroups && analysisGroups[analysisId] in logpoints
    ensures r.Some? ==> r.value == analysisGroups[analysisId]
  {
    if analysisId in analysisGroups && analysisGroups[analysisId] in logpoints then Some(analysisGroups[analysisId]) else None
  }

  /** The `onResult` calls for a batch of results: one per result, in order, or none at all. */
  function ResultCalls(group: Option<string>, hasOnResult: bool, results: seq<AnalysisResult>): (r: seq<HandlerCall>)
    ensures group.None? || !hasOnResult ==> r == []
    ensures group.Some? && hasOnResult ==> (|r| == |results| &&
      forall i :: 0 <= i < |results| ==> r[i] == OnResult(group.value, results[i].key, results[i].time))
  {
    if group.None? || !hasOnResult then []
    else seq(|results|, i requires 0 <= i < |results| => OnResult(group.value, results[i].key, results[i].time))
  }

  /** The `onPointLoading` calls for a batch of points. */
  function PointLoadingCalls(group: string, points: seq<AnalysisPoint>): (r: seq<HandlerCall>)
    ensures |r| == |points|
    ensures forall i :: 0 <= i < |points| ==> r[i] == OnPointLoading(group, points[i].point, points[i].time)
  {
    seq(|points|, i requires 0 <= i < |points| => OnPointLoading(group, points[i].point, points[i].time))
  }

  /** Once a group is removed, results of every analysis created for it are dropped. */
  lemma ResultsDroppedAfterRemoval(analysisGroups: map<string, string>, logpoints: map<string, LogpointInfo>,
                                   g: string, analysisId: string, hasOnResult: bool, results: seq<AnalysisResult>)
    requires analysisId in analysisGroups && analysisGroups[analysisId] == g
    ensures RegisteredGroup(analysisGroups, logpoints - {g}, analysisId).None?
    ensures ResultCalls(RegisteredGroup(analysisGroups, logpoints - {g}, analysisId), hasOnResult, results) == []
  {
  }

  /** The releases `removeLogpoint` can send at once: those of waiters already answered, in order. */
  function ImmediateReleases(waiters: seq<nat>, answered: map<nat, string>): (r: seq<Message>)
    ensures |r| <= |waiters|
    ensures forall m :: m in r ==> m.ReleaseAnalysis?
  {
    if waiters == [] then []
    else
      var w := waiters[|waiters| - 1];
      ImmediateReleases(waiters[..|waiters| - 1], answered) + (if w in answered then [ReleaseAnalysis(answered[w])] else [])
  }

  /** The waiters whose release must wait for their analysis to be created, in order. */
  function DeferredReleases(waiters: seq<nat>, answered: map<nat, string>): (r: seq<nat>)
    ensures forall w :: w in r ==> w in waiters && w !in answered
  {
    if waiters == [] then []
    else
      var w := waiters[|waiters| - 1];
      DeferredReleases(waiters[..|waiters| - 1], answered) + (if w in answered then [] else [w])
  }

  /** `removeLogpoint` releases every analysis of the group exactly once: now or when it is created. */
  lemma {:induction false} OneReleasePerWaiter(waiters: seq<nat>, answered: map<nat, string>)
    ensures |ImmediateReleases(waiters, answered)| + |DeferredReleases(waiters, answered)| == |waiters|
    decreases |waiters|
  {
    if waiters != [] {
      OneReleasePerWaiter(waiters[..|waiters| - 1], answered);
    }
  }

  /** The loop of `removeLogpoint` over the group's waiters. */
  method SplitReleases(waiters: seq<nat>, answered: map<nat, string>) returns (sent: seq<Message>, deferred: seq<nat>)
    ensures sent == ImmediateReleases(waiters, answered)
    ensures deferred == DeferredReleases(waiters, answered)
  {
    sent, deferred := [], [];
    for i := 0 to |waiters|
      invariant sent == ImmediateReleases(waiters[..i], answered)
      invariant deferred == DeferredReleases(waiters[..i], answered)
    {
      assert waiters[..i + 1][..i] == waiters[..i];
      var w := waiters[i];
      if w in answered {
        sent := sent + [ReleaseAnalysis(answered[w])];
      } else {
        deferred := deferred + [w];
      }
    }
    assert waiters[..|waiters|] == waiters;
  }

  /** The waiters left after the releases waiting on `w` have been sent. */
  function Without(s: seq<nat>, w: nat): (r: seq<nat>)
    ensures forall x :: x in r <==> x in s && x != w
    ensures |r| + Occurrences(s, w) == |s|
  {
    if s == [] then []
    else
      var rest := Without(s[..|s| - 1], w);
      assert forall x :: x in s <==> x in s[..|s| - 1] || x == s[|s| - 1];
      rest + (if s[|s| - 1] == w then [] else [s[|s| - 1]])
  }

  /** How many times `w` occurs in `s`. */
  function Occurrences(s: seq<nat>, w: nat): (n: nat)
    ensures n <= |s|
    ensures n == 0 <==> w !in s
  {
    if s == [] then 0
    else
      assert forall x :: x in s <==> x in s[..|s| - 1] || x == s[|s| - 1];
      Occurrences(s[..|s| - 1], w) + (if s[|s| - 1] == w then 1 else 0)
  }

  /** The requests that give an analysis its points. */
  predicate AddsPoints(m: Message)
  {
    m.AddLocation? || m.AddEventHandlerEntryPoints? || m.AddExceptionPoints? || m.AddRandomPoints?
  }

  /**
   * The order the server needs for one analysis's requests: every request is
   * about `analysisId` (none creates or releases it), `runAnalysis` is sent
   * once, at index `run`, after every request that adds points, and the
   * points query, when sent, comes last, after the run.
   */
  predicate RequestOrderAt(analysisId: string, r: seq<Message>, run: nat)
  {
    run < |r| && r[run] == RunAnalysis(analysisId) &&
    forall i :: 0 <= i < |r| ==>
      !r[i].CreateAnalysis? && !r[i].ReleaseAnalysis? && r[i].analysisId == analysisId &&
      (r[i].RunAnalysis? ==> i == run) &&
      (AddsPoints(r[i]) ==> i < run) &&
      (r[i].FindAnalysisPoints? ==> run < i == |r| - 1)
  }

  /**
   * The messages `setLogpoint` sends once its analysis exists: the location,
   * then the run, then the points query unless the logpoint has a condition.
   */
  function SetLogpointMessages(analysisId: string, location: ScriptLocation, condition: string): (r: seq<Message>)
    ensures |r| >= 2 && r[0] == AddLocation(analysisId, location, None) && r[1] == RunAnalysis(analysisId)
    ensures FindAnalysisPoints(analysisId) in r <==> condition == ""
    ensures RequestOrderAt(analysisId, r, 1)
  {
    [AddLocation(analysisId, location, None), RunAnalysis(analysisId)]
      + (if condition == "" then [FindAnalysisPoints(analysisId)] else [])
  }

  /** The messages `setEventLogpoint` sends: one entry-point request per event type, then run and find. */
  function EventLogpointMessages(analysisId: string, eventTypes: seq<string>): (r: seq<Message>)
    ensures |r| == |eventTypes| + 2
    ensures forall i :: 0 <= i < |eventTypes| ==> r[i] == AddEventHandlerEntryPoints(analysisId, eventTypes[i])
    ensures r[|eventTypes|..] == [RunAnalysis(analysisId), FindAnalysisPoints(analysisId)]
    ensures RequestOrderAt(analysisId, r, |eventTypes|)
  {
    seq(|eventTypes|, i requires 0 <= i < |eventTypes| => AddEventHandlerEntryPoints(analysisId, eventTypes[i]))
      + [RunAnalysis(analysisId), FindAnalysisPoints(analysisId)]
  }

  /** A child of the framework-listeners value: whether it is an object, its class, and its function location. */
  datatype ListenerChild = ListenerChild(isObject: bool, className: string, location: ScriptLocation)

  /** The locations of the framework listeners that are functions, in order. */
  function FrameworkLocations(children: seq<ListenerChild>): (r: seq<ScriptLocation>)
    ensures |r| <= |children|
    ensures forall l :: l in r ==> exists c :: c in children && c.isObject && c.className == "Function" && c.location == l
    ensures (forall c :: c in children ==> !(c.isObject && c.className == "Function")) ==> r == []
  {
    if children == [] then []
    else
      var c := children[|children| - 1];
      FrameworkLocations(children[..|children| - 1]) + (if c.isObject && c.className == "Function" then [c.location] else [])
  }

  /** The messages of the second-stage analysis on framework listeners, run on the stack frame of `point`. */
  function FrameworkListenerMessages(analysisId: string, point: string, locations: seq<ScriptLocation>): (r: seq<Message>)
    ensures |r| == |locations| + 2
    ensures forall i :: 0 <= i < |locations| ==> r[i] == AddLocation(analysisId, locations[i], Some(point))
    ensures r[|locations|..] == [RunAnalysis(analysisId), FindAnalysisPoints(analysisId)]
    ensures RequestOrderAt(analysisId, r, |locations|)
  {
    seq(|locations|, i requires 0 <= i < |locations| => AddLocation(analysisId, locations[i], Some(point)))
      + [RunAnalysis(analysisId), FindAnalysisPoints(analysisId)]
  }

  /** The messages of `setExceptionLogpoint`: the exception points are added, the analysis run, its points queried. */
  function ExceptionLogpointMessages(analysisId: string): (r: seq<Message>)
    ensures RequestOrderAt(analysisId, r, 1)
    ensures r[0] == AddExceptionPoints(analysisId) && FindAnalysisPoints(analysisId) in r
  {
    [AddExceptionPoints(analysisId), RunAnalysis(analysisId), FindAnalysisPoints(analysisId)]
  }

  /** The messages of `setRandomLogpoint`: `numLogs` random points are added, the analysis run, its points queried. */
  function RandomLogpointMessages(analysisId: string, numLogs: nat): (r: seq<Message>)
    ensures RequestOrderAt(analysisId, r, 1)
    ensures r[0] == AddRandomPoints(analysisId, numLogs) && FindAnalysisPoints(analysisId) in r
  {
    [AddRandomPoints(analysisId, numLogs), RunAnalysis(analysisId), FindAnalysisPoints(analysisId)]
  }

  /**
   * The condition rule run inside a conditional logpoint's mapper: with the
   * condition's returned value (absent when it threw), no message is produced
   * when it has a falsy `value` field or no fields at all (undefined).
   */
  predicate ConditionSuppresses(returned: Option<seq<Member>>)
  {
    returned.Some? &&
      ((HasKey(returned.value, "value") && !Truthy(Get(returned.value, "value").value)) || |returned.value| == 0)
  }

  /** Primitives are suppressed exactly when falsy; object references and thrown conditions never are. */
  lemma ConditionSuppressesCases(v: Json, objectId: string)
    ensures ConditionSuppresses(Some([Member("value", v)])) <==> !Truthy(v)
    ensures ConditionSuppresses(Some([]))
    ensures !ConditionSuppresses(Some([Member("object", JStr(objectId))]))
    ensures !ConditionSuppresses(None)
  {
    assert Get([Member("value", v)], "value") == Some(v);
    assert HasKey([Member("value", v)], "value");
    assert !HasKey([Member("object", JStr(objectId))], "value") by {
      assert forall i :: 0 <= i < 1 ==> [Member("object", JStr(objectId))][i].key == "object";
    }
  }

  /** The point names `setRandomLogpoint` returns once enough points have arrived. */
  function PointNames(points: seq<AnalysisPoint>): (r: seq<string>)
    ensures |r| == |points|
    ensures forall i :: 0 <= i < |points| ==> r[i] == points[i].point
  {
    seq(|points|, i requires 0 <= i < |points| => points[i].point)
  }

  /** The logpoint registry, with the replay server's answers arriving through its methods. */
  class LogpointRegistry {
    var logpoints: map<string, LogpointInfo>
    var analysisGroups: map<string, string>
    var outbox: seq<Message>
    var calls: seq<HandlerCall>
    /** createAnalysis requests awaiting their answer, with the group they were made for. */
    var pendingCreations: map<nat, string>
    /** Answered createAnalysis requests and the analysis they created. */
    var answered: map<nat, string>
    /** Waiters whose analysis `removeLogpoint` will release once it is created. */
    var pendingReleases: seq<nat>
    const hasOnResult: bool
    const hasOnPointLoading: bool
    const hasClearLogpoint: bool

    ghost predicate Valid()
      reads this
    {
      (forall w :: w in pendingCreations ==> w < |outbox| && w !in answered)
      && (forall w :: w in answered ==> w < |outbox|)
      && (forall w :: w in pendingReleases ==> w in pendingCreations)
      && (forall g, w :: g in logpoints && w in logpoints[g].analysisWaiters ==> w in pendingCreations || w in answered)
    }

    constructor(hasOnResult: bool, hasOnPointLoading: bool, hasClearLogpoint: bool)
      ensures Valid()
      ensures logpoints == map[] && analysisGroups == map[] && outbox == [] && calls == []
      ensures pendingCreations == map[] && answered == map[] && pendingReleases == []
      ensures this.hasOnResult == hasOnResult && this.hasOnPointLoading == hasOnPointLoading
      ensures this.hasClearLogpoint == hasClearLogpoint
    {
      logpoints := map[];
      analysisGroups := map[];
      outbox := [];
      calls := [];
      pendingCreations := map[];
      answered := map[];
      pendingReleases := [];
      this.hasOnResult := hasOnResult;
      this.hasOnPointLoading := hasOnPointLoading;
      this.hasClearLogpoint := hasClearLogpoint;
    }

    /**
     * The synchronous part of `createLogpointAnalysis`: create the group's
     * entry if it is absent, send createAnalysis, and record its waiter.
     */
    method StartAnalysis(logGroupId: string, mapper: Mapper) returns (waiter: nat)
      requires Valid()
      modifies this
      ensures Valid()
      ensures waiter == |old(outbox)| && outbox == old(outbox) + [CreateAnalysis(mapper, true)]
      ensures logGroupId in old(logpoints) ==> logpoints == old(logpoints)[logGroupId :=
        old(logpoints)[logGroupId].(analysisWaiters := old(logpoints)[logGroupId].analysisWaiters + [waiter])]
      ensures logGroupId !in old(logpoints) ==> logpoints == old(logpoints)[logGroupId := LogpointInfo([waiter], [], false)]
      ensures pendingCreations == old(pendingCreations)[waiter := logGroupId]
      ensures analysisGroups == old(analysisGroups) && calls == old(calls)
      ensures answered == old(answered) && pendingReleases == old(pendingReleases)
    {
      waiter := |outbox|;
      outbox := outbox + [CreateAnalysis(mapper, true)];
      if logGroupId !in logpoints {
        logpoints := logpoints[logGroupId := LogpointInfo([waiter], [], false)];
      } else {
        var info := logpoints[logGroupId];
        logpoints := logpoints[logGroupId := info.(analysisWaiters := info.analysisWaiters + [waiter])];
      }
      pendingCreations := pendingCreations[waiter := logGroupId];
    }

    /**
     * The answer to a createAnalysis request: the analysis now reports to the
     * group it was created for, and releases `removeLogpoint` deferred on this
     * waiter are sent.
     */
    method AnalysisCreated(waiter: nat, analysisId: string)
      requires Valid() && waiter in pendingCreations
      modifies this
      ensures Valid()
      ensures analysisGroups == old(analysisGroups)[analysisId := old(pendingCreations)[waiter]]
      ensures answered == old(answered)[waiter := analysisId]
      ensures pendingCreations == old(pendingCreations) - {waiter}
      ensures pendingReleases == Without(old(pendingReleases), waiter)
      ensures outbox == old(outbox) + seq(Occurrences(old(pendingReleases), waiter), _ => ReleaseAnalysis(analysisId))
      ensures logpoints == old(logpoints) && calls == old(calls)
    {
      analysisGroups := analysisGroups[analysisId := pendingCreations[waiter]];
      answered := answered[waiter := analysisId];
      pendingCreations := pendingCreations - {waiter};
      var kept, sent := ReleasesFor(pendingReleases, waiter, analysisId);
      outbox := outbox + sent;
      pendingReleases := kept;
    }

    /** One pass over the deferred releases: those for `waiter` are sent, the others kept in order. */
    static method ReleasesFor(releases: seq<nat>, waiter: nat, analysisId: string) returns (kept: seq<nat>, sent: seq<Message>)
      ensures kept == Without(releases, waiter)
      ensures sent == seq(Occurrences(releases, waiter), _ => ReleaseAnalysis(analysisId))
    {
      kept := [];
      sent := [];
      for i := 0 to |releases|
        invariant kept == Without(releases[..i], waiter)
        invariant sent == seq(Occurrences(releases[..i], waiter), _ => ReleaseAnalysis(analysisId))
      {
        assert releases[..i + 1][..i] == releases[..i];
        if releases[i] == waiter {
          sent := sent + [ReleaseAnalysis(analysisId)];
        } else {
          kept := kept + [releases[i]];
        }
      }
      assert releases[..|releases|] == releases;
    }

    /** `removeLogpoint`: forget the group and release each of its analyses. */
    method RemoveLogpoint(logGroupId: string)
      requires Valid()
      modifies this
      ensures Valid()
      ensures logGroupId !in old(logpoints) ==>
        logpoints == old(logpoints) && outbox == old(outbox) && calls == old(calls) && pendingReleases == old(pendingReleases)
      ensures logGroupId in old(logpoints) ==>
        var waiters := old(logpoints)[logGroupId].analysisWaiters;
        logpoints == old(logpoints) - {logGroupId} &&
        calls == old(calls) + (if hasClearLogpoint then [ClearLogpoint(logGroupId)] else []) &&
        outbox == old(outbox) + ImmediateReleases(waiters, answered) &&
        pendingReleases == old(pendingReleases) + DeferredReleases(waiters, answered)
      ensures analysisGroups == old(analysisGroups) && answered == old(answered) && pendingCreations == old(pendingCreations)
    {
      if logGroupId !in logpoints {
        return;
      }
      if hasClearLogpoint {
        calls := calls + [ClearLogpoint(logGroupId)];
      }
      var waiters := logpoints[logGroupId].analysisWaiters;
      assert forall w :: w in waiters ==> w in pendingCreations || w in answered;
      logpoints := logpoints - {logGroupId};
      var sent, deferred := SplitReleases(waiters, answered);
      outbox := outbox + sent;
      pendingReleases := pendingReleases + deferred;
    }

    /** The `Analysis.analysisResult` handler. */
    method OnAnalysisResult(analysisId: string, results: seq<AnalysisResult>)
      modifies this
      ensures calls == old(calls) + ResultCalls(RegisteredGroup(analysisGroups, logpoints, analysisId), hasOnResult, results)
      ensures logpoints == old(logpoints) && analysisGroups == old(analysisGroups) && outbox == old(outbox)
      ensures pendingCreations == old(pendingCreations) && answered == old(answered) && pendingReleases == old(pendingReleases)
    {
      var group := RegisteredGroup(analysisGroups, logpoints, analysisId);
      if group.None? || !hasOnResult {
        return;
      }
      var made: seq<HandlerCall> := [];
      for i := 0 to |results|
        invariant made == ResultCalls(group, true, results[..i])
      {
        made := made + [OnResult(group.value, results[i].key, results[i].time)];
      }
      assert results[..|results|] == results;
      calls := calls + made;
    }

    /**
     * The `Analysis.analysisPoints` handler: the points are appended to the
     * group's list in arrival order, its points waiter is called, and each
     * point is reported as loading.
     */
    method OnAnalysisPoints(analysisId: string, points: seq<AnalysisPoint>)
      requires Valid()
      modifies this
      ensures Valid()
      ensures var group := RegisteredGroup(old(analysisGroups), old(logpoints), analysisId);
        (group.None? ==> logpoints == old(logpoints) && calls == old(calls)) &&
        (group.Some? ==>
          var info := old(logpoints)[group.value];
          logpoints == old(logpoints)[group.value := info.(points := info.points + points)] &&
          calls == old(calls) + (if info.hasPointsWaiter then [PointsWaiterCalled(group.value)] else [])
                              + (if hasOnPointLoading then PointLoadingCalls(group.value, points) else []))
      ensures analysisGroups == old(analysisGroups) && outbox == old(outbox)
      ensures pendingCreations == old(pendingCreations) && answered == old(answered) && pendingReleases == old(pendingReleases)
    {
      var group := RegisteredGroup(analysisGroups, logpoints, analysisId);
      if group.None? {
        return;
      }
      var g := group.value;
      var info := logpoints[g];
      logpoints := logpoints[g := info.(points := info.points + points)];
      if info.hasPointsWaiter {
        calls := calls + [PointsWaiterCalled(g)];
      }
      if hasOnPointLoading {
        var made: seq<HandlerCall> := [];
        for i := 0 to |points|
          invariant made == PointLoadingCalls(g, points[..i])
        {
          made := made + [OnPointLoading(g, points[i].point, points[i].time)];
        }
        assert points[..|points|] == points;
        calls := calls + made;
      }
    }

    /** Sends the messages an operation issues once its analysis exists. */
    method Send(messages: seq<Message>)
      modifies this
      ensures outbox == old(outbox) + messages
      ensures logpoints == old(logpoints) && analysisGroups == old(analysisGroups) && calls == old(calls)
      ensures pendingCreations == old(pendingCreations) && answered == old(answered) && pendingReleases == old(pendingReleases)
    {
      outbox := outbox + messages;
    }

    /**
     * The first stage of `eventLogpointOnFrameworkListeners`: no analysis at
     * all unless some listener is a function; otherwise the second-stage
     * analysis is requested, and its locations are returned for `Send`.
     */
    method OnFrameworkListeners(logGroupId: string, children: seq<ListenerChild>) returns (r: Option<(nat, seq<ScriptLocation>)>)
      requires Valid()
      modifies this
      ensures Valid()
      ensures FrameworkLocations(children) == [] <==> r.None?
      ensures r.None? ==> outbox == old(outbox) && logpoints == old(logpoints) && pendingCreations == old(pendingCreations)
      ensures r.Some? ==> (r.value.1 == FrameworkLocations(children) && r.value.0 == |old(outbox)| &&
        outbox == old(outbox) + [CreateAnalysis(EventMapper(false), true)])
      ensures r.Some? && logGroupId in old(logpoints) ==> logpoints == old(logpoints)[logGroupId :=
        old(logpoints)[logGroupId].(analysisWaiters := old(logpoints)[logGroupId].analysisWaiters + [r.value.0])]
      ensures r.Some? && logGroupId !in old(logpoints) ==> logpoints == old(logpoints)[logGroupId := LogpointInfo([r.value.0], [], false)]
      ensures r.Some? ==> pendingCreations == old(pendingCreations)[r.value.0 := logGroupId]
      ensures analysisGroups == old(analysisGroups) && calls == old(calls)
      ensures answered == old(answered) && pendingReleases == old(pendingReleases)
    {
      var locations := FrameworkLocations(children);
      if locations == [] {
        return None;
      }
      var waiter := StartAnalysis(logGroupId, EventMapper(false));
      r := Some((waiter, locations));
    }

    /**
     * One check of `setRandomLogpoint`'s wait loop: the point names once at
     * least `numLogs` points have arrived, otherwise a points waiter is set and
     * the loop keeps waiting.  Only a group missing at the first check throws:
     * the code reads the group's record once and then waits on that record, so
     * after the group is removed no further answer wakes the waiter.
     */
    method RandomLogpointCheck(logGroupId: string, numLogs: nat) returns (r: Result<Option<seq<string>>>)
      requires Valid()
      modifies this
      ensures Valid()
      ensures logGroupId !in old(logpoints) ==> r.Throws? && logpoints == old(logpoints)
      ensures logGroupId in old(logpoints) ==>
        var info := old(logpoints)[logGroupId];
        r.Ok? &&
        (|info.points| >= numLogs ==> r.value == Some(PointNames(info.points)) && logpoints == old(logpoints)) &&
        (|info.points| < numLogs ==> r.value.None? && logpoints == old(logpoints)[logGroupId := info.(hasPointsWaiter := true)])
      ensures analysisGroups == old(analysisGroups) && outbox == old(outbox) && calls == old(calls)
      ensures pendingCreations == old(pendingCreations) && answered == old(answered) && pendingReleases == old(pendingReleases)
    {
      if logGroupId !in logpoints {
        return Throws("Cannot read properties of undefined (reading 'points')");
      }
      var info := logpoints[logGroupId];
      if |info.points| >= numLogs {
        return Ok(Some(PointNames(info.points)));
      }
      logpoints := logpoints[logGroupId := info.(hasPointsWaiter := true)];
      r := Ok(None);
    }
  }
}
