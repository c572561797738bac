# Replay devtools front-end: a verified model of its core

This project models the core of the Replay devtools front-end in Dafny: the
web client that replays a browser recording and lets the user inspect it
with a debugger, a console, an element inspector and a timeline. The model
covers these parts:

- **Timeline.** The graphics store behind the timeline: the sorted paint and
  mouse series, their nearest/next/previous lookups, and the screen and mouse
  shown at a time. The legacy replay player widget: checkpoint times, the
  seek targets of "previous" and "next", playback, and zooming. The newer
  timeline component: seeking and the playback loop.
- **Protocol.** The logpoint analyses and their protocol messages. The
  socket that pairs requests with responses and dispatches events. The
  thread's style-rule front.
- **Debugger.** The event bridge that builds pause packets from preloaded
  data (cache keys, cached-form references, packet comparison). The
  debugger commands and the source tabs. Quick-open query parsing, the
  editor's line and column conversion, and the inline preview of scope
  values. The breakpoint navigation.
- **Console.** The console message selectors and the paused-message rule of the
  console output. The conversion of protocol console messages into packets.
- **Inspector.** The node selection and its type tests.
- **Reducers and small utilities.** The Redux reducers for the app state
  (the current one and the legacy one). Source helpers. The suspense wakeable,
  the parallel suspense reader and the async value wrapper. The bearer token check of
  the architecture demo. The command-line argument and environment
  handling of the end-to-end test runner.

Each module follows one source file. Pure code becomes datatypes, functions
and lemmas. Code that updates state in place becomes a class whose methods
carry `modifies` clauses and state the whole new state in terms of the old.
The properties the source relies on are proved as lemmas over the
specification functions. They include sortedness of the paint series,
injectivity of cache keys, idempotence of form resolution, request and
response pairing, round trips of the string encodings, and the
partitioning of tests into stripes.

JavaScript numbers are modelled as `real` for times and as `int` or `nat`
for counts, lines and identifiers. Exceptions are the `Throws` branch of a
`Result`. Promises become two steps: the call that starts the work, and a
later method for the event that completes it. Calls into modules outside
the core are parameters of the model.

Where the code as written evidently differs from what its authors meant,
the model keeps both behaviours. A flag fixed when a class is constructed
chooses between them: `searchTarget` for the graphics store, `intended` for
the replay player and the test runner. Lemmas exhibit the difference and
prove the intended property (see "## Findings").

## Model

| member | source | states |
|---|---|---|
| Graphics.MostRecentIndex | src/protocol/graphics.js:41-53 | None exactly when the series is empty or starts after the time; otherwise an index whose entry is at or before the time and whose successor is after it |
| Graphics.MostRecentIndexIsLast | src/protocol/graphics.js:41-53 | on a sorted series the index is the last entry at or before the time, and None means every entry is later |
| Graphics.MostRecentEntry | src/protocol/graphics.js:55-58 | an entry exactly when the index exists, and it is a member of the series no later than the time |
| Graphics.NextEntry | src/protocol/graphics.js:60-66 | a found entry is a member strictly after the time; None only for an empty series or one whose last entry is not after the time |
| Graphics.NextEntryIsFirstAfter | src/protocol/graphics.js:60-66 | on a sorted series the found entry has no earlier entry after the time |
| Graphics.NextEntryIsFirstAfterAll | src/protocol/graphics.js:60-66 | on a sorted series any entry after the time makes the lookup succeed with an entry no later than it |
| Graphics.InsertEntrySorted | src/protocol/graphics.js:69-80 | the result is a permutation of the series plus the new entry, and an entry no earlier than the last is appended |
| Graphics.InsertKeepsSorted | src/protocol/graphics.js:69-80 | inserting into a sorted series while searching that same series keeps it sorted |
| Graphics.InsertKeepsFirstBound | src/protocol/graphics.js:69-80 | inserting into a sorted series keeps its first entry at or before any bound the old first entry met, so the seed at time 0 stays first |
| Graphics.MouseInsertCanUnsort | src/protocol/graphics.js:73 | searching the paint series instead of the mouse series can leave the mouse series unsorted |
| Graphics.CloserEntry | src/protocol/graphics.js:82-94 | the result is one of the two candidates, None only when both are, no farther from the time than either, and the second on a tie |
| Graphics.ClosestEntry | src/protocol/graphics.js:96-100 | a member of the series, None exactly for an empty series |
| Graphics.ClosestEntryIsClosest | src/protocol/graphics.js:96-100 | on a non-empty sorted series no entry is closer to the time than the result |
| Graphics.JpegHash | src/protocol/graphics.js:119 | a hash exactly when some screenshot is a JPEG, and then it is the hash of the first JPEG screenshot |
| Graphics.AddPaintsStopsAtFailure | src/protocol/graphics.js:117-122 | once a paint without a JPEG screenshot throws, the later paints of the batch change nothing |
| Graphics.AddPaintsKeepsSorted | src/protocol/graphics.js:117-122 | a batch of paints keeps the paint series sorted, whether or not it completes |
| Graphics.AddMouseEventsInvariant | src/protocol/graphics.js:124-131 | mouse events and clicks keep their kinds, grow by the batch and by its mousedown count, and stay sorted when the series searched is their own |
| Graphics.GraphicsStore.constructor | src/protocol/graphics.js:109-115 | the paint series starts with the seed at point "0", time 0, and the mouse series are empty |
| Graphics.GraphicsStore.OnPaints | src/protocol/graphics.js:117-122 | the paint series becomes the batch's insertions, the mouse series are unchanged, the series stays sorted, and every time from 0 on still has a previous paint |
| Graphics.GraphicsStore.OnMouseEvents | src/protocol/graphics.js:124-131 | the mouse and click series become the batch's insertions and the paint series is unchanged |
| Graphics.ClosestPaintOrMouseEvent | src/protocol/graphics.js:150-154 | a member of either series, None exactly when both are empty |
| Graphics.NextPaintOrMouseEvent | src/protocol/graphics.js:156-160 | a member of either series after the time, None exactly when neither series has one |
| Graphics.NextPaintOrMouseEventIsEarliest | src/protocol/graphics.js:156-160 | on sorted series the result is no later than any entry of either series after the time |
| Graphics.NextPaintEvent | src/protocol/graphics.js:162-164 | the next entry of the paint series |
| Graphics.PreviousPaintEvent | src/protocol/graphics.js:166-172 | throws exactly when no paint is at or before the time; a result is a paint strictly before the time |
| Graphics.MouseOverlay | src/protocol/graphics.js:226-237 | a mouse exactly when a mouse event is at or before the time, with a click exactly when the last click is within 200 ms before it |
| Graphics.GraphicsAtTime | src/protocol/graphics.js:206-238 | throws exactly when no paint is at or before the time; otherwise the most recent such paint decides: no graphics exactly when it has no hash, and a screen carries that paint's hash and point, with the mouse overlay at the time |
| Bisection.Bisect | src/timeline/WebReplayPlayer.js:186-197 | the result lies in the range, the callback is non-negative there unless it is the start, and negative just after it |
| Bisection.BisectFindsLastNonNegative | src/timeline/WebReplayPlayer.js:186-197 | for a non-increasing callback the result is the last index where it is non-negative |
| Bisection.BinarySearch | src/timeline/WebReplayPlayer.js:186-197 | the loop computes the bisection |
| ReplayPlayer.InitialTable | src/timeline/WebReplayPlayer.js:114-125 | the initial checkpoint table is valid, knows checkpoint 1 only, and ends at time 0 |
| ReplayPlayer.ScanTightens | src/timeline/WebReplayPlayer.js:145-160 | the widget-event scan narrows the window: the lower bound never passes the point and the upper bound stays after it |
| ReplayPlayer.ExecutionPointTimeIsKnown | src/timeline/WebReplayPlayer.js:134-174 | the time lies between recorded times; an unknown checkpoint gives the recording end, and a last checkpoint its own time |
| ReplayPlayer.InterpolatedTimeWithinWindow | src/timeline/WebReplayPlayer.js:162-173 | with interpolation, the time stays inside the window's times |
| ReplayPlayer.ExecutionPointTimeNeverInterpolates | src/timeline/WebReplayPlayer.js:166-167 | as written the window records have no progress, so a point halfway between two checkpoints gets the earlier time |
| ReplayPlayer.ClampBefore | src/timeline/WebReplayPlayer.js:611-613 | the result is the point or the end, never after the end, and the point itself when it is not after the end |
| ReplayPlayer.ClampAfter | src/timeline/WebReplayPlayer.js:597-599 | the result is the point or the start, never before the start, and the point itself when it is not before the start |
| ReplayPlayer.PreviousTarget | src/timeline/WebReplayPlayer.js:585-603 | the target is never before the zoom start; as written it succeeds exactly when the point's checkpoint is known |
| ReplayPlayer.PreviousStaysAtCheckpointStart | src/timeline/WebReplayPlayer.js:589 | as written, "previous" at the start of checkpoint 2 stays put; the intended comparison reaches checkpoint 1 |
| ReplayPlayer.IntendedPreviousMovesBack | src/timeline/WebReplayPlayer.js:585-603 | with the intended comparison, "previous" from a checkpoint's own point moves strictly back |
| ReplayPlayer.NextTarget | src/timeline/WebReplayPlayer.js:604-617 | nothing at the zoom end; throws when the next checkpoint is unknown; a target is never after the zoom end |
| ReplayPlayer.FirstLaterEvent | src/timeline/WebReplayPlayer.js:618-640 | the first widget event after the point at least 100 ms later, or None when there is none |
| ReplayPlayer.NextPlaybackPointSpec | src/timeline/WebReplayPlayer.js:618-640 | nothing at the zoom end; throws when the checkpoint or its successor is unknown; a target is never after the zoom end |
| ReplayPlayer.NextPlaybackPointAdvances | src/timeline/WebReplayPlayer.js:618-640 | when the next checkpoint is later, the playback point moves forward or stops at the zoom end |
| ReplayPlayer.VisiblePosition | src/timeline/WebReplayPlayer.js:743-765 | a fraction in [0, 1]: 0 before the zoom start, 1 from the zoom end, and proportional in between |
| ReplayPlayer.VisiblePositionMonotone | src/timeline/WebReplayPlayer.js:743-765 | later times are never shown to the left of earlier ones |
| ReplayPlayer.ClassNameContainsEnabledKeys | src/timeline/WebReplayPlayer.js:30-38 | the class name starts with the name and contains every enabled key, and is the bare name when none is enabled |
| ReplayPlayer.ClassName | src/timeline/WebReplayPlayer.js:30-38 | the loop builds the specified class name |
| ReplayPlayer.Player.constructor | src/timeline/WebReplayPlayer.js:215-244 | every point starts at the first checkpoint, with no hover, drag or playback; the flag choosing the intended interpolation and comparison is kept |
| ReplayPlayer.Player.ExecutionPointTime | src/timeline/WebReplayPlayer.js:134-174 | the loop over widget events computes the specified time |
| ReplayPlayer.Player.GetVisiblePosition | src/timeline/WebReplayPlayer.js:743-765 | a fraction in [0, 1], 0 for no point |
| ReplayPlayer.Player.ZoomedRegion | src/timeline/WebReplayPlayer.js:536-551 | a region exactly when a drag and a hover are at least 2% apart; its ends are those two points, in order |
| ReplayPlayer.Player.Seek | src/timeline/WebReplayPlayer.js:575-584 | no point does nothing; a point is appended to the seeks and sets seeking; the playback, paints, recording and paused state are kept, and nothing else changes |
| ReplayPlayer.Player.DoPrevious | src/timeline/WebReplayPlayer.js:585-603 | succeeds exactly when the target exists, seeks to it when there is one, and a new seek is never before the zoom start; seeking is set exactly when a seek was added, and nothing else changes |
| ReplayPlayer.Player.DoNext | src/timeline/WebReplayPlayer.js:604-617 | at the zoom end nothing is sought; otherwise it seeks to the next target, and throws when there is none; seeking is set exactly when a seek was added, and nothing else changes |
| ReplayPlayer.Player.NextPlaybackPoint | src/timeline/WebReplayPlayer.js:618-640 | the loop computes the specified playback point |
| ReplayPlayer.Player.ReplayPaintFinished | src/timeline/WebReplayPlayer.js:641-655 | a paint for another point changes nothing; the awaited one moves playback and the execution point to the next point and paints it, or at the zoom end stops playback with a seek to the point; a throw changes nothing; seeking is set exactly when a seek was added, and nothing else changes |
| ReplayPlayer.Player.StartPlayback | src/timeline/WebReplayPlayer.js:656-667 | playback starts at the next playback point, or at the zoom start at the end, and paints it; when the lookup throws nothing changes; seeking, the zoom, hover, drag, checkpoints, recording and paused are kept |
| ReplayPlayer.Player.StopPlayback | src/timeline/WebReplayPlayer.js:668-676 | playback ends, seeking to where it was; without playback no seek and seeking is kept; the zoom, hover, drag, checkpoints, recording and paused are kept |
| ReplayPlayer.Player.DoZoomOut | src/timeline/WebReplayPlayer.js:677-683 | the zoom becomes the whole recording and nothing else changes |
| ReplayPlayer.Player.OnPlayerMouseUp | src/timeline/WebReplayPlayer.js:552-574 | the drag ends; a zoomed region becomes the zoom and the execution point is clamped into it; with alt the hovered point becomes the start (end with shift) edge; otherwise a drag with a hover point seeks there; seeking is set exactly by a seek, and the execution point, playback, paints, checkpoints and hover are kept |
| Timeline.VisiblePosition | src/ui/components/Timeline/index.js:418-434 | a fraction in [0, 1]: 0 for a missing or zero time and up to the zoom start, 1 from the zoom end, and proportional in between |
| Timeline.PixelDistance | src/ui/components/Timeline/index.js:409-417 | the absolute difference of the two visible positions scaled by the overlay width: never negative, at most the width, and 0 for the same time |
| Timeline.ScaledGap | src/ui/components/Timeline/index.js:409-417 | the scaled gap between two positions in [0, 1] is at most one overlay width either way, and 0 for no gap |
| Timeline.PixelDistanceSymmetric | src/ui/components/Timeline/index.js:409-417 | the distance does not depend on the order of the two times |
| Timeline.LeftOffset | src/ui/components/Timeline/index.js:440-446 | never negative, 0 for a zero overlay width, and otherwise at least the position less half the marker width |
| Timeline.SeekEffect | src/ui/components/Timeline/index.js:234-239 | a missing point seeks nothing; otherwise exactly one seek to that point and time |
| Timeline.SeekTimeEffect | src/ui/components/Timeline/index.js:241-256 | no target seeks nothing; a seek goes to the point of the most recent paint or mouse event, at the exact target time |
| Timeline.NextPaintTarget | src/ui/components/Timeline/index.js:258-270 | no move at the zoom start; otherwise it throws exactly when `previousPaintEvent` throws and does not move exactly when that finds no paint; a target is the previous paint's time raised to the zoom start (`Math.max`), so not before the zoom start, and earlier than the current time |
| Timeline.PrevPaintTarget | src/ui/components/Timeline/index.js:272-284 | no move at the zoom end; a target exists exactly when a later paint does, and is that paint's time lowered to the zoom end (`Math.min`), so not after the zoom end, and later than the current time |
| Timeline.NextGraphicsTime | src/ui/components/Timeline/index.js:296-299 | the next graphics time is the zoom end or lies after the current time |
| Timeline.Timeline.constructor | src/ui/components/Timeline/index.js:61-66 | the component starts with no playback and no seeks |
| Timeline.Timeline.Seek | src/ui/components/Timeline/index.js:234-239 | the seek log grows by the seek's effect and nothing else changes |
| Timeline.Timeline.SeekTime | src/ui/components/Timeline/index.js:241-256 | the seek log grows by the seek-time effect and nothing else changes |
| Timeline.Timeline.GoToNextPaint | src/ui/components/Timeline/index.js:258-270 | fails exactly when the previous-paint lookup throws, and otherwise seeks to the target time |
| Timeline.Timeline.GoToPrevPaint | src/ui/components/Timeline/index.js:272-284 | seeks to the target time, if any, and nothing else changes |
| Timeline.Timeline.StartPlayback | src/ui/components/Timeline/index.js:354-368 | playback starts at the current time, or at 0 from the zoom end, and the loop runs to the zoom end |
| Timeline.Timeline.StopPlayback | src/ui/components/Timeline/index.js:369-377 | playback is cleared, seeking to its last time when it was running |
| Timeline.Timeline.PlaybackFrame | src/ui/components/Timeline/index.js:305-324 | a cleared playback stops the loop; past the end it seeks to the end and clears; otherwise the time advances with the clock |
| Timeline.Timeline.GraphicsArrived | src/ui/components/Timeline/index.js:326-350 | a cleared playback stops the loop; a stall of over 100 ms re-baselines the loop at the current time, after which each frame time is that time plus the wall time elapsed since the re-baseline; the next graphics time is prepared |
| Logpoint.RegisteredGroup | src/protocol/logpoint.js:58-61 | a group exactly when the analysis was mapped to a group that still exists |
| Logpoint.ResultCalls | src/protocol/logpoint.js:55-81 | no handler calls without a live group or an onResult handler; otherwise one call per result, the i-th for the i-th result, with its key and time |
| Logpoint.PointLoadingCalls | src/protocol/logpoint.js:97-102 | one onPointLoading call per point, the i-th for the i-th point |
| Logpoint.ResultsDroppedAfterRemoval | src/protocol/logpoint.js:58-61 | once the group is removed, its analysis results produce no calls |
| Logpoint.ImmediateReleases | src/protocol/logpoint.js:387-390 | at most one release per waiter, and nothing but releases |
| Logpoint.DeferredReleases | src/protocol/logpoint.js:387-390 | only unanswered waiters of the group are deferred |
| Logpoint.OneReleasePerWaiter | src/protocol/logpoint.js:387-390 | each waiter is either released now or deferred, never both and never neither |
| Logpoint.SplitReleases | src/protocol/logpoint.js:387-390 | the loop computes the immediate releases and the deferred waiters |
| Logpoint.Without | src/protocol/logpoint.js:387-390 | the released waiter is removed from the deferred ones, all of its occurrences and nothing else |
| Logpoint.Occurrences | src/protocol/logpoint.js:387-390 | the count is zero exactly when the waiter is absent |
| Logpoint.SetLogpointMessages | src/protocol/logpoint.js:207-220 | every message is about the analysis and none creates or releases it; addLocation, then runAnalysis once, and findAnalysisPoints last exactly when there is no condition |
| Logpoint.EventLogpointMessages | src/protocol/logpoint.js:271-284 | one addEventHandlerEntryPoints per event type, in order, all before the single runAnalysis, then findAnalysisPoints last; every message is about the analysis |
| Logpoint.FrameworkLocations | src/protocol/logpoint.js:287-296 | only the locations of function listeners, none when no listener is a function |
| Logpoint.FrameworkListenerMessages | src/protocol/logpoint.js:301-312 | one addLocation per location on the listener's stack frame, all before the single runAnalysis, then findAnalysisPoints last; every message is about the analysis |
| Logpoint.ExceptionLogpointMessages | src/protocol/logpoint.js:328-337 | addExceptionPoints first, the single runAnalysis after every request that adds points, and the points query last; every message is about the analysis |
| Logpoint.RandomLogpointMessages | src/protocol/logpoint.js:359-367 | addRandomPoints with the count first, the single runAnalysis after every request that adds points, and the points query last; every message is about the analysis |
| Logpoint.ConditionSuppressesCases | src/protocol/logpoint.js:169-178 | a condition suppresses the message exactly when its primitive value is falsy or it is undefined; objects and thrown conditions never do |
| Logpoint.PointNames | src/protocol/logpoint.js:375 | the names of the points, in order |
| Logpoint.LogpointRegistry.constructor | src/protocol/logpoint.js:47-53 | no logpoints, no analyses, nothing sent |
| Logpoint.LogpointRegistry.StartAnalysis | src/protocol/logpoint.js:105-114 | the group exists afterwards, createAnalysis is sent, and its waiter is recorded for the group |
| Logpoint.LogpointRegistry.AnalysisCreated | src/protocol/logpoint.js:116-118 | the analysis is mapped to the waiter's group, and releases deferred for this waiter are sent now |
| Logpoint.LogpointRegistry.ReleasesFor | src/protocol/logpoint.js:387-390 | the loop drops the waiter from the deferred releases and sends one release per occurrence |
| Logpoint.LogpointRegistry.RemoveLogpoint | src/protocol/logpoint.js:378-391 | an unknown group changes nothing; otherwise clearLogpoint is called, the group is deleted, answered waiters are released and the others deferred |
| Logpoint.LogpointRegistry.OnAnalysisResult | src/protocol/logpoint.js:55-81 | the handler calls for the results are appended and no state changes |
| Logpoint.LogpointRegistry.OnAnalysisPoints | src/protocol/logpoint.js:83-103 | an unknown group changes nothing; otherwise the points are appended, the points waiter is woken and onPointLoading is called per point |
| Logpoint.LogpointRegistry.Send | src/protocol/logpoint.js:207-220 | the messages are appended to the outbox and nothing else changes |
| Logpoint.LogpointRegistry.OnFrameworkListeners | src/protocol/logpoint.js:287-300 | no analysis when no listener is a function; otherwise a second-stage analysis is requested for their locations, its waiter recorded on the group and in the pending creations |
| Logpoint.LogpointRegistry.RandomLogpointCheck | src/protocol/logpoint.js:364-375 | throws when the group is gone; returns the point names once enough points arrived, and otherwise sets a points waiter |
| EventKeys.PositionJoin | src/devtools/client/debugger/src/client/firefox/events.js:99-101 | a position's key is its four fields joined by ":" |
| EventKeys.PointFields | src/devtools/client/debugger/src/client/firefox/events.js:103-110 | a point has six key fields with a position and two without |
| EventKeys.PointToStringFields | src/devtools/client/debugger/src/client/firefox/events.js:103-110 | a point's key splits at ":" back into its fields, when the position kind has no ":" |
| EventKeys.PointToStringInjective | src/devtools/client/debugger/src/client/firefox/events.js:103-110 | distinct points never share a key, so the point-keyed caches never collide |
| EventKeys.IntToStringInjective | src/devtools/client/debugger/src/client/firefox/events.js:350-352 | the rendering of an integer line or column determines it |
| EventKeys.LocationKeySplit | src/devtools/client/debugger/src/client/firefox/events.js:350-352 | a location key splits into the source id's fields, the line and the column |
| EventKeys.LocationKeyInjective | src/devtools/client/debugger/src/client/firefox/events.js:350-352 | distinct locations never share a key, even when the source id contains ":" |
| CachedForms.ReplaceCachedForm | src/devtools/client/debugger/src/client/firefox/events.js:194-205 | succeeds exactly for a reference whose `cached` id names a stored, truthy form, and gives that form; a non-reference throws "Expected cached form reference", an unknown or falsy one "Unknown cached form" |
| CachedForms.ReplaceRefs | src/devtools/client/debugger/src/client/firefox/events.js:127-150 | arrays keep their length and objects their keys; non-objects are returned unchanged (with `ReplaceRefsChildren`: each child resolved in place, or the first failing child's error) |
| CachedForms.ReplaceItems | src/devtools/client/debugger/src/client/firefox/events.js:132-140 | a resolved array keeps its length |
| CachedForms.ReplaceMembers | src/devtools/client/debugger/src/client/firefox/events.js:141-148 | a resolved object keeps its keys, in order |
| CachedForms.ReplaceChild | src/devtools/client/debugger/src/client/firefox/events.js:132-147 | a reference child becomes its stored form and fails exactly when it names none; any other child has its own references replaced |
| CachedForms.ReplaceItemsAt | src/devtools/client/debugger/src/client/firefox/events.js:132-140 | an array resolves exactly when every element does, each element becoming its own replacement, in place |
| CachedForms.ReplaceItemsFirstFailure | src/devtools/client/debugger/src/client/firefox/events.js:132-140 | a failure is the error of an element all of whose predecessors resolved |
| CachedForms.ReplaceMembersAt | src/devtools/client/debugger/src/client/firefox/events.js:141-148 | an object resolves exactly when every member does, each keeping its key and becoming its own replacement |
| CachedForms.ReplaceMembersFirstFailure | src/devtools/client/debugger/src/client/firefox/events.js:141-148 | a failure is the error of a member all of whose predecessors resolved |
| CachedForms.ReplaceRefsChildren | src/devtools/client/debugger/src/client/firefox/events.js:127-150 | an array or object resolves exactly when each child does, element by element or member by member, and a failure is the first failing child's |
| CachedForms.ReplaceResolves | src/devtools/client/debugger/src/client/firefox/events.js:127-150 | with a resolved store, a successful replacement leaves no reference anywhere |
| CachedForms.ReplaceKeepsResolved | src/devtools/client/debugger/src/client/firefox/events.js:127-150 | a value without references is left exactly as it is |
| CachedForms.ReplaceIdempotent | src/devtools/client/debugger/src/client/firefox/events.js:127-150 | replacing twice against a resolved store is the same as replacing once |
| PacketCompare.MaybeRemoveKey | src/devtools/client/debugger/src/client/firefox/events.js:280-284 | the key is removed exactly when the expected object has the tolerated type or kind, has the key, and the received one lacks it; every other key is kept |
| PacketCompare.CompareReflexive | src/devtools/client/debugger/src/client/firefox/events.js:243-309 | `compareObjects` (`CompareObjects`): a well-formed packet compares equal to itself |
| PacketCompare.ToleratesExtraDetail | src/devtools/client/debugger/src/client/firefox/events.js:279-291 | an expected object with an extra preview, items or target (by its type or kind) still matches the received one without it |
| PacketCompare.PreviewOnlyOnExpectedSide | src/devtools/client/debugger/src/client/firefox/events.js:280-284 | the tolerance is one-sided: a preview only on the received side is a mismatch |
| Events.SourceForActorValue | src/devtools/client/debugger/src/client/firefox/events.js:154 | succeeds exactly for a registered string actor, giving its source |
| Events.AddMappedLocationState | src/devtools/client/debugger/src/client/firefox/events.js:378-399 | a cached location changes nothing; otherwise the source gets a record and at most one mapping request is made |
| Events.MappingArrivedState | src/devtools/client/debugger/src/client/firefox/events.js:398-404 | an answer with no remap since the request is stored and the location recorded; a stale answer stores nothing |
| Events.SourceRemapStartState | src/devtools/client/debugger/src/client/firefox/events.js:411-422 | throws exactly when a remap is in progress; otherwise sets remapping, bumps the count and forgets the source's mappings |
| Events.SourceRemapEndState | src/devtools/client/debugger/src/client/firefox/events.js:424-434 | throws exactly when no remap is in progress; otherwise clears the flag and re-adds the recorded locations |
| Events.AddMappedLocationKeepsOwnSource | src/devtools/client/debugger/src/client/firefox/events.js:378-405 | every recorded location stays under its own source |
| Events.MappingArrivedKeepsOwnSource | src/devtools/client/debugger/src/client/firefox/events.js:398-404 | every recorded location stays under its own source |
| Events.Requests | src/devtools/client/debugger/src/client/firefox/events.js:393-394 | one request per location, in order, with the remap count |
| Events.AddMappedLocationRequests | src/devtools/client/debugger/src/client/firefox/events.js:378-399 | an uncached location of a source not remapping is asked for, and nothing else changes |
| Events.AddMappedLocationsRequestsAll | src/devtools/client/debugger/src/client/firefox/events.js:433 | re-adding uncached locations asks for each of them in order |
| Events.RemapCycleRequestsEveryLocation | src/devtools/client/debugger/src/client/firefox/events.js:411-434 | a remap start and end asks again for every location, with the new count, and leaves no stale mapping |
| Events.AddScopesState | src/devtools/client/debugger/src/client/firefox/events.js:444-464 | only the scope queue, the known scopes and the scope requests can change |
| Events.ScopesArrivedState | src/devtools/client/debugger/src/client/firefox/events.js:462-463 | the scopes are stored for the location and nothing else changes |
| Events.AddScopesKeepsPendingWellFormed | src/devtools/client/debugger/src/client/firefox/events.js:445-454 | each queue holds locations of its own source with no line and column twice |
| Events.AddScopesQueues | src/devtools/client/debugger/src/client/firefox/events.js:445-454 | for a source not loaded yet, a location at the same line and column is queued |
| Events.AddScopesAllLoaded | src/devtools/client/debugger/src/client/firefox/events.js:456-463 | for loaded sources, every location ends up known or asked for |
| Events.SourceLoadedHandlesQueue | src/devtools/client/debugger/src/client/firefox/events.js:470-477 | loading a source empties its queue and every queued location is known or asked for |
| Events.PreloadFrameFormState | src/devtools/client/debugger/src/client/firefox/events.js:152-160 | succeeds exactly when the form's source actor is registered, and leaves the form caches unchanged |
| Events.AddCachedFormState | src/devtools/client/debugger/src/client/firefox/events.js:162-184 | throws without a truthy actor; otherwise succeeds exactly when the form's references resolve, storing the resolved form under its actor whatever its type, and a frame form with an unregistered source waits for it; step targets and pause packets are kept |
| Events.PreloadOrDeferState | src/devtools/client/debugger/src/client/firefox/events.js:170-183 | a frame form whose source is not registered is appended to that actor's pending list |
| Events.PreloadFormsState | src/devtools/client/debugger/src/client/firefox/events.js:189 | preloading pending forms changes neither the cached nor the pending forms |
| Events.OnSourceActorRegisterState | src/devtools/client/debugger/src/client/firefox/events.js:186-192 | nothing for an actor with no pending forms; its list is dropped once all preload, and kept when one throws |
| Events.AddCachedFormsState | src/devtools/client/debugger/src/client/firefox/events.js:219 | adding the forms changes only the form caches: the step targets and pause packets are kept |
| Events.ReplaceEach | src/devtools/client/debugger/src/client/firefox/events.js:221 | the resolved frames keep their count |
| Events.ReplaceEachElementwise | src/devtools/client/debugger/src/client/firefox/events.js:221 | the frames resolve exactly when each of them does, each to its own stored form |
| Events.ReplayPreloadedDataState | src/devtools/client/debugger/src/client/firefox/events.js:207-229 | invalidation clears the step targets; "StepTargets" sets the point's entry and nothing else; "PauseData" keeps the step targets; an unknown kind throws "Bad preloaded data kind" and changes nothing |
| Events.PauseDataState | src/devtools/client/debugger/src/client/firefox/events.js:217-225 | a failed entry stores no packet; the packets of other points and the step targets are kept |
| Events.PauseDataStored | src/devtools/client/debugger/src/client/firefox/events.js:217-225 | the packet is stored exactly when all the entry's forms were added and every frame and the environment resolve; it then holds, frame by frame, the stored forms they refer to |
| Events.StepTargetsKeepOtherPoints | src/devtools/client/debugger/src/client/firefox/events.js:212-215 | the targets become readable under the point's key, and those of every other point are kept |
| Events.AddCachedFormThenResolve | src/devtools/client/debugger/src/client/firefox/events.js:162-205 | a form stored by its actor is what a reference to that actor resolves to |
| Events.PauseDataCache.constructor | src/devtools/client/debugger/src/client/firefox/events.js:113-122 | all caches start empty |
| Events.PauseDataCache.AddMappedLocation | src/devtools/client/debugger/src/client/firefox/events.js:378-399 | the caches move as the location-adding step says |
| Events.PauseDataCache.MappingArrived | src/devtools/client/debugger/src/client/firefox/events.js:398-404 | the caches move as the mapping-answer step says |
| Events.PauseDataCache.SourceRemapStart | src/devtools/client/debugger/src/client/firefox/events.js:411-422 | the caches move as the remap-start step says, and are unchanged when it throws |
| Events.PauseDataCache.SourceRemapEnd | src/devtools/client/debugger/src/client/firefox/events.js:424-434 | the caches move as the remap-end step says |
| Events.PauseDataCache.AddScopes | src/devtools/client/debugger/src/client/firefox/events.js:444-464 | the caches move as the scope-adding step says |
| Events.PauseDataCache.ScopesArrived | src/devtools/client/debugger/src/client/firefox/events.js:462-463 | the scopes are stored for the location |
| Events.PauseDataCache.SourceLoaded | src/devtools/client/debugger/src/client/firefox/events.js:470-477 | the loop marks the source loaded and adds the scopes of its queue |
| Events.PauseDataCache.PreloadFrameForm | src/devtools/client/debugger/src/client/firefox/events.js:152-160 | the caches move as the preload step says, or it reports the throw |
| Events.PauseDataCache.AddCachedForm | src/devtools/client/debugger/src/client/firefox/events.js:162-184 | the caches move as the form-adding step says, or it reports the throw |
| Events.PauseDataCache.PreloadOrDefer | src/devtools/client/debugger/src/client/firefox/events.js:170-183 | the caches move as the preload-or-defer step says |
| Events.PauseDataCache.PreloadForms | src/devtools/client/debugger/src/client/firefox/events.js:189 | the loop preloads the forms until one throws |
| Events.PauseDataCache.OnSourceActorRegister | src/devtools/client/debugger/src/client/firefox/events.js:186-192 | the caches move as the actor-registration step says |
| Events.PauseDataCache.AddCachedForms | src/devtools/client/debugger/src/client/firefox/events.js:219 | the loop adds the forms until one throws |
| Events.PauseDataCache.ReplayPauseData | src/devtools/client/debugger/src/client/firefox/events.js:217-225 | the forms are cached, then the pause packet is stored, as `PauseDataState` says; `PauseDataStored` characterises the stored packet |
| Events.PauseDataCache.ReplayPreloadedData | src/devtools/client/debugger/src/client/firefox/events.js:207-229 | the caches move as `ReplayPreloadedDataState` says, case by case |
| Commands.ColumnText | src/devtools/client/debugger/src/client/firefox/commands.js:193-198 | a column renders as its digits and never contains ":" |
| Commands.LocationKeyMissingSourceId | src/devtools/client/debugger/src/client/firefox/commands.js:195 | a location without a source id has the key of one with the empty id |
| Commands.KeyFields | src/devtools/client/debugger/src/client/firefox/commands.js:193-198 | the last two ":"-fields of a breakpoint key are the line and the column |
| Commands.LocationKeyDeterminesLineAndColumn | src/devtools/client/debugger/src/client/firefox/commands.js:193-198 | breakpoints with the same key are at the same line and column |
| Commands.MaybeGenerateLogGroupId | src/devtools/client/debugger/src/client/firefox/commands.js:200-209 | a log group id "logGroup-" plus the random text is added exactly for a logpoint on a rewindable target; the rest is unchanged |
| Commands.SourceForActor | src/devtools/client/debugger/src/client/firefox/commands.js:448-453 | succeeds exactly for a registered actor with a non-empty source, giving it |
| Commands.EventListenerBreakpointTypes | src/devtools/client/debugger/src/client/firefox/commands.js:370-388 | the list the server returns, or the empty list when the request fails or returns no array |
| Commands.MergeSafeGetters | src/devtools/client/debugger/src/client/firefox/commands.js:303-314 | the properties are the own ones plus the safe getters; each getter becomes a value descriptor, and other own properties are kept |
| Commands.Client.constructor | src/devtools/client/debugger/src/client/firefox/commands.js:36-42 | no breakpoints, no source actors, no requests |
| Commands.Client.ClearedBy | src/devtools/client/debugger/src/client/firefox/commands.js:211-217 | exactly the log group of the breakpoint stored at the key when it has a non-empty one, and nothing otherwise |
| Commands.Client.SetBreakpoint | src/devtools/client/debugger/src/client/firefox/commands.js:223-232 | the old logpoint's messages are cleared, the breakpoint is stored under its key with a generated log group, and each thread is asked |
| Commands.Client.RemoveBreakpoint | src/devtools/client/debugger/src/client/firefox/commands.js:234-239 | the logpoint's messages are cleared, the key is deleted and each thread is asked |
| Commands.Client.RegisterSourceActor | src/devtools/client/debugger/src/client/firefox/commands.js:394-397 | the actor maps to the source, so a non-empty source is found for it |
| Commands.Client.PauseOnExceptions | src/devtools/client/debugger/src/client/firefox/commands.js:328-340 | each thread is asked with the caught-exceptions flag inverted |
| ConsoleMessages.MessageTime | src/devtools/client/webconsole/selectors/messages.js:27-30 | the message's own time if truthy, else its last execution point's time if truthy, else 0 |
| ConsoleMessages.MessageExecutionPoint | src/devtools/client/webconsole/selectors/messages.js:60-63 | the message's own point, or else its last execution point's |
| ConsoleMessages.VisibleMessages | src/devtools/client/webconsole/selectors/messages.js:36-48 | exactly the visible ids whose time is in the zoomed region, in their order |
| ConsoleMessages.VisibleMessagesAppend | src/devtools/client/webconsole/selectors/messages.js:36-48 | filtering a concatenation is concatenating the filtered parts |
| ConsoleMessages.GetMessages | src/devtools/client/webconsole/selectors/messages.js:50-54 | the messages of the ids, one per id, in order |
| ConsoleMessages.MessagesForTimeline | src/devtools/client/webconsole/selectors/messages.js:56-58 | exactly the console-API and error messages, in their order and each as often as before |
| ConsoleMessages.ClosestMessage | src/devtools/client/webconsole/selectors/messages.js:65-98 | no message exactly when there is no paused point or nothing is visible |
| ConsoleMessages.FirstStop | src/devtools/client/webconsole/selectors/messages.js:77-93 | the index of the first message (evaluations skipped when asked) whose point is after the paused point |
| ConsoleMessages.LastCandidate | src/devtools/client/webconsole/selectors/messages.js:77-93 | the last message before that index that is not skipped |
| ConsoleMessages.LastCandidateShift | src/devtools/client/webconsole/selectors/messages.js:77-93 | the last candidate of a list is found from its tail |
| ConsoleMessages.ScanFindsLastCandidate | src/devtools/client/webconsole/selectors/messages.js:65-98 | the scan returns the last candidate before the first stop, or the first visible message when there is none |
| ConsoleMessages.GetClosestMessage | src/devtools/client/webconsole/components/Output/ConsoleOutput.js:40-60 | the loop computes the closest message |
| ConsoleMessages.InWarningGroup | src/devtools/client/webconsole/selectors/messages.js:104-110 | exactly when the message has a warning group type and its group message is visible |
| ConsoleMessages.RenderedMessages | src/devtools/client/webconsole/components/Output/ConsoleOutput.js:110-146 | one node per message in the zoomed region, in order, and at most one marked as paused when ids are distinct |
| ConsoleMessages.ScanWithoutEvaluations | src/devtools/client/webconsole/selectors/messages.js:84-88 | without evaluation messages, skipping evaluations changes nothing |
| ConsoleMessages.SelectorAgreesWithOutput | src/devtools/client/webconsole/components/Output/ConsoleOutput.js:40-60 | the selector and the console output pick the same paused message when no evaluation is visible |
| BreakpointNavigation.NavigateToPoint | src/devtools/client/debugger/src/components/SecondaryPanes/Breakpoints/BreakpointNavigation.js:20-24 | a hit seeks to its point and time with the pause flag set; no hit seeks nowhere |
| BreakpointNavigation.IsEmpty | src/devtools/client/debugger/src/components/SecondaryPanes/Breakpoints/BreakpointNavigation.js:25 | empty exactly when the hits are loaded and there are none |
| BreakpointNavigation.FindLastBefore | src/devtools/client/debugger/src/components/SecondaryPanes/Breakpoints/BreakpointNavigation.js:30 | the last hit strictly before the current point, none when there is none |
| BreakpointNavigation.FindFirstAfter | src/devtools/client/debugger/src/components/SecondaryPanes/Breakpoints/BreakpointNavigation.js:31 | the first hit strictly after the current point, none when there is none |
| BreakpointNavigation.PrevNext | src/devtools/client/debugger/src/components/SecondaryPanes/Breakpoints/BreakpointNavigation.js:27-32 | no neighbours without a current point or without hits; otherwise the previous and next hits |
| BreakpointNavigation.PrevNextAreNearest | src/devtools/client/debugger/src/components/SecondaryPanes/Breakpoints/BreakpointNavigation.js:27-32 | over hits sorted by point, the previous hit exists exactly when some hit precedes the current point and is the nearest one, and symmetrically for the next |
| BreakpointNavigation.HitsSoFar | src/devtools/client/debugger/src/components/SecondaryPanes/Breakpoints/BreakpointNavigation.js:87-89 | counts the hits at or before the current point: zero exactly when all are later, all exactly when none is |
| BreakpointNavigation.Status | src/devtools/client/debugger/src/components/SecondaryPanes/Breakpoints/BreakpointNavigation.js:78-92 | "Indexing", "Loading" and "No hits" in that priority, otherwise a count over the total |
| BreakpointNavigation.StatusCounts | src/devtools/client/debugger/src/components/SecondaryPanes/Breakpoints/BreakpointNavigation.js:86-91 | the status text of a loaded, non-empty hit list splits at "/" into the hits so far and the total |
| ProtocolSocket.Dispatch | src/protocol/socket.js:99-118 | a message with an id settles its waiter (rejecting when it carries an error), or finds none; a message without one goes to its method's listener, or is unknown |
| ProtocolSocket.Socket.constructor | src/protocol/socket.js:35-41 | a closed socket with no pending messages, next id 1 and no waiters or listeners |
| ProtocolSocket.Socket.SendMessage | src/protocol/socket.js:57-71 | the message takes the next id, is sent when the socket is open and queued otherwise, and a waiter is registered for it |
| ProtocolSocket.Socket.OnSocketOpen | src/protocol/socket.js:79-84 | the queued messages are sent in order and the queue is emptied |
| ProtocolSocket.Socket.AddEventListener | src/protocol/socket.js:88-93 | a second listener for the same method is refused with "Duplicate event listener"; otherwise it is registered |
| ProtocolSocket.Socket.RemoveEventListener | src/protocol/socket.js:95-97 | the method's listener is dropped and nothing else changes |
| ProtocolSocket.Socket.OnSocketMessage | src/protocol/socket.js:99-118 | the delivery is the dispatch of the message; a settled waiter is removed and nothing else changes |
| ProtocolSocket.SettledOnce | src/protocol/socket.js:103-105 | a reply that settled its waiter finds no waiter the second time |
| Tabs.UpdateTabList | src/devtools/client/debugger/src/reducers/tabs.js:191-203 | a tab for the URL is put first unless a tab similar to the URL is already open; a tab without URL is always added |
| Tabs.UpdateTabListIdempotent | src/devtools/client/debugger/src/reducers/tabs.js:191-203 | adding the same tab twice is adding it once, when a tab is similar to its own URL |
| Tabs.RemoveSource | src/devtools/client/debugger/src/reducers/tabs.js:169-173 | keeps, in order and as often as before, exactly the tabs that do not match the closed source |
| Tabs.RemoveSourcesKeeps | src/devtools/client/debugger/src/reducers/tabs.js:175-184 | closing several sources keeps, in order and as often as before, exactly the tabs that match none of them |
| Tabs.FindByUrl | src/devtools/client/debugger/src/reducers/tabs.js:150-167 | finds a source with the tab's URL, or none exactly when no source has it |
| Tabs.FindByUrlFirst | src/devtools/client/debugger/src/reducers/tabs.js:155-157 | the source found is the first one with the URL |
| Tabs.RecognisedTab | src/devtools/client/debugger/src/reducers/tabs.js:154-160 | a tab keeps its URL; with no source of its URL it is unchanged, otherwise it takes the id of the first source with its URL |
| Tabs.RecognisedTabs | src/devtools/client/debugger/src/reducers/tabs.js:152-159 | as many tabs as before, each recognised in its place |
| Tabs.RecognisedTabsCons | src/devtools/client/debugger/src/reducers/tabs.js:154-160 | the recognised list is the first tab recognised followed by the rest recognised |
| Tabs.SourceTabCount | src/devtools/client/debugger/src/reducers/tabs.js:150-167 | counts the tabs that already have a source |
| Tabs.Recognise | src/devtools/client/debugger/src/reducers/tabs.js:150-167 | the tabs after recognition that have a source id, in order and as often as there: each tab whose URL a source has takes the first such source's id |
| Tabs.AddVisibleTabs | src/devtools/client/debugger/src/reducers/tabs.js:150-167 | the list is unchanged when recognition gains no source tab; otherwise it is the recognised list, in which every tab has a source |
| Tabs.AddVisibleTabsUnmatched | src/devtools/client/debugger/src/reducers/tabs.js:150-167 | sources whose URLs match no tab leave the list unchanged |
| Tabs.RecogniseUnmatchedCount | src/devtools/client/debugger/src/reducers/tabs.js:150-167 | with no URL matches, the recognised tabs are exactly those that already had a source |
| Tabs.AddSelectedSource | src/devtools/client/debugger/src/reducers/tabs.js:133-148 | a source that already has a tab changes nothing; otherwise its tab is added as by the tab-list update |
| Tabs.SelectedSourceHasTab | src/devtools/client/debugger/src/reducers/tabs.js:133-148 | after selecting a source with an id, a tab for it exists |
| Tabs.Move | src/devtools/client/debugger/src/reducers/tabs.js:205-217 | moving a tab is a permutation that puts it at the target index (the last one when the target is past the end) |
| Tabs.FindTabIndex | src/devtools/client/debugger/src/reducers/tabs.js:205-217 | the first tab with the given URL or source id |
| Tabs.MoveTabInList | src/devtools/client/debugger/src/reducers/tabs.js:205-217 | moves only when some tab has the key, and then permutes the list |
| Tabs.Update | src/devtools/client/debugger/src/reducers/tabs.js:38-68 | other actions keep the list; closing removes the matching tabs; adding sources adds the visible tabs; moving keeps the tabs and their multiplicity and puts a found tab at the target index, or last when the index is past the end |
| Tabs.TabExists | src/devtools/client/debugger/src/reducers/tabs.js:240-242 | true exactly when some tab has that non-empty source id |
| Tabs.NewSelectedIndex | src/devtools/client/debugger/src/reducers/tabs.js:79-123 | -1 exactly when no tab is left; otherwise an index of the remaining tabs: the one before the closed tab, the first for index 0 or 1, and the last when the old index is past the end |
| Tabs.IndexOfUrl | src/devtools/client/debugger/src/reducers/tabs.js:79-123 | the first tab with the URL, or -1 exactly when none has it |
| Tabs.NewSelectedSourceId | src/devtools/client/debugger/src/reducers/tabs.js:79-123 | empty when nothing is selected, the selection is unknown or no tab is left |
| QuickOpen.ParseQuickOpenQuery | src/devtools/client/debugger/src/utils/quick-open.js:23-39 | a leading "@", "#", ":" or "?" picks its mode; otherwise a ":" after the first character means go-to-source, and anything else is a source search |
| QuickOpen.DigitPrefix | src/devtools/client/debugger/src/utils/quick-open.js:42-43 | the longest run of digits the text starts with |
| QuickOpen.ParseInt | src/devtools/client/debugger/src/utils/quick-open.js:42-43 | a non-empty run of digits reads as its decimal value |
| QuickOpen.DigitPrefixOfDigits | src/devtools/client/debugger/src/utils/quick-open.js:42-43 | a text of digits is its own digit prefix |
| QuickOpen.ParseLineColumn | src/devtools/client/debugger/src/utils/quick-open.js:41-51 | no result exactly when the line field does not parse; the line and, when it parses, the column come from the second and third ":"-fields |
| QuickOpen.ParseLineColumnRoundTrip | src/devtools/client/debugger/src/utils/quick-open.js:41-51 | ":line:column" written out in decimal parses back to that line and column |
| QuickOpen.SplitGotoQuery | src/devtools/client/debugger/src/utils/quick-open.js:42 | ":line:column" splits into an empty field, the line and the column |
| QuickOpen.ParseLineOnly | src/devtools/client/debugger/src/utils/quick-open.js:41-51 | ":line" parses to that line and no column |
| QuickOpen.FormatSymbol | src/devtools/client/debugger/src/utils/quick-open.js:84-92 | the result's title and value are the symbol's name and its line is the symbol's start line |
| QuickOpen.FormatSymbolIdParts | src/devtools/client/debugger/src/utils/quick-open.js:84-92 | the id splits at ":" into the name and the subtitle, which reads back as the start line |
| QuickOpen.FormatSymbols | src/devtools/client/debugger/src/utils/quick-open.js:94-104 | nothing for missing or loading symbols, otherwise each function formatted, in order |
| QuickOpen.ListedSources | src/devtools/client/debugger/src/utils/quick-open.js:134-136 | exactly the sources with a relative URL that are not pretty-printed, in order |
| QuickOpen.FormatSources | src/devtools/client/debugger/src/utils/quick-open.js:126-141 | the loop formats exactly the listed sources, in order |
| QuickOpen.FormatSourceForList | src/devtools/client/debugger/src/utils/quick-open.js:53-68 | the value is the relative URL followed by the query string, non-empty for a listed source; id and URL kept; the tab icon exactly when the URL is open in a tab |
| QuickOpen.ListedSourcesSnoc | src/devtools/client/debugger/src/utils/quick-open.js:131-137 | one more source adds it to the listed ones exactly when it is listed |
| QuickOpen.ListedSourcesAppend | src/devtools/client/debugger/src/utils/quick-open.js:131-137 | listing distributes over concatenation of the source list |
| EditorLines.ToEditorLine | src/devtools/client/debugger/src/utils/editor/index.js:65-67 | a truthy line is one past the editor line it maps to; a missing or zero line maps to 1 |
| EditorLines.EditorLineRoundTrip | src/devtools/client/debugger/src/utils/editor/index.js:65-71 | for every editor line other than -1, converting it to a source line and back gives the editor line (-1 maps to source line 0, which converts back to 1) |
| EditorLines.ToEditorPosition | src/devtools/client/debugger/src/utils/editor/index.js:73-78 | the line is converted and a missing or zero column becomes 0 |
| EditorLines.ToEditorRange | src/devtools/client/debugger/src/utils/editor/index.js:80-86 | both ends converted as positions |
| EditorLines.LocationsInViewport | src/devtools/client/debugger/src/utils/editor/index.js:125-165 | zeros without an editor; with one, every line from 0 to infinity, and the left column not after the right one |
| EditorLines.ViewportColumnsOrdered | src/devtools/client/debugger/src/utils/editor/index.js:142-145 | with a non-negative scroll, a non-negative offset and a client area at least 30 wide, the left column does not exceed the right one |
| InlinePreview.GetLocalScopeLevels | src/devtools/client/debugger/src/actions/pause/inlinePreview.js:23-32 | the number of leading block scopes: all of them are blocks and the next one, if any, is not |
| InlinePreview.FindProperty | src/devtools/client/debugger/src/actions/pause/inlinePreview.js:240-243 | the value of a property with that name, or undefined when there is none |
| InlinePreview.Step | src/devtools/client/debugger/src/actions/pause/inlinePreview.js:239-257 | a level either changes nothing or appends ".property" to the name; the first level always resolves, to the loaded property's value |
| InlinePreview.Walk | src/devtools/client/debugger/src/actions/pause/inlinePreview.js:237-259 | the walked name extends the starting name |
| InlinePreview.ExpressionNameAndValue | src/devtools/client/debugger/src/actions/pause/inlinePreview.js:222-263 | the variable itself without properties or member path; otherwise the name extends with the first member |
| InlinePreview.GetExpressionNameAndValue | src/devtools/client/debugger/src/actions/pause/inlinePreview.js:222-263 | the loop computes the display name and value of the expression |
| InlinePreview.ResolvedLevels | src/devtools/client/debugger/src/actions/pause/inlinePreview.js:237-259 | the members that resolved, a subsequence of the path |
| InlinePreview.WalkNamesResolvedPath | src/devtools/client/debugger/src/actions/pause/inlinePreview.js:237-259 | the display name is the variable's name followed by ".member" for exactly the members that resolved |
| InlinePreview.PreviewOf | src/devtools/client/debugger/src/actions/pause/inlinePreview.js:189-217 | a preview one line above the reference (editor lines count from 0), at its column, whose name extends the binding's; without properties or a member path it is the binding itself |
| InlinePreview.Backward | src/devtools/client/debugger/src/actions/pause/inlinePreview.js:188-218 | no more previews than references |
| InlinePreview.BindingValues | src/devtools/client/debugger/src/actions/pause/inlinePreview.js:166-220 | no previews when the scope level does not exist or does not bind the name |
| InlinePreview.GetBindingValues | src/devtools/client/debugger/src/actions/pause/inlinePreview.js:166-220 | the method computes the binding's previews |
| InlinePreview.PreviewsOfRefs | src/devtools/client/debugger/src/actions/pause/inlinePreview.js:188-218 | the backward loop over the references yields the specified previews |
| InlinePreview.BackwardLast | src/devtools/client/debugger/src/actions/pause/inlinePreview.js:188-218 | one step of the backward loop: the last reference is skipped below the paused line or when its name was seen, and shown first otherwise |
| InlinePreview.BackwardAbovePausedLine | src/devtools/client/debugger/src/actions/pause/inlinePreview.js:190-196 | every preview lies above the paused line |
| InlinePreview.Names | src/devtools/client/debugger/src/actions/pause/inlinePreview.js:207-208 | the display names of the previews, in order |
| InlinePreview.BackwardNamesDistinct | src/devtools/client/debugger/src/actions/pause/inlinePreview.js:205-208 | no display name is shown twice |
| InlinePreview.BackwardNearestWins | src/devtools/client/debugger/src/actions/pause/inlinePreview.js:186-208 | a shown reference whose name is new and that no later shown reference shares has its preview in the result |
| InlinePreview.BackwardSound | src/devtools/client/debugger/src/actions/pause/inlinePreview.js:188-218 | every preview comes from a shown reference and has a name not seen before |
| InlinePreview.OnLine | src/devtools/client/debugger/src/actions/pause/inlinePreview.js:145-155 | the previews of one line, in their sorted order |
| InlinePreview.OnLineSnoc | src/devtools/client/debugger/src/actions/pause/inlinePreview.js:148-155 | a preview is added to its own line's bucket only |
| InlinePreview.OnLineAbsent | src/devtools/client/debugger/src/actions/pause/inlinePreview.js:148-155 | a line no preview lies on has an empty bucket |
| InlinePreview.GroupByLine | src/devtools/client/debugger/src/actions/pause/inlinePreview.js:145-155 | a bucket for exactly the lines some preview lies on, holding that line's previews in order |
| InlinePreview.OnLineSortedByColumn | src/devtools/client/debugger/src/actions/pause/inlinePreview.js:146-155 | previews sorted by line and column come out of each bucket sorted by column |
| Sources.KeyForSourceSplit | src/ui/utils/sources.ts:24-26 | the source key splits at ":" into the URL's fields and the content hash |
| Sources.KeyForSourceDetermines | src/ui/utils/sources.ts:24-26 | sources with the same key have the same URL and content hash, when the hash has no ":" |
| Sources.FullSourceDetails | src/ui/utils/sources.ts:9-22 | the given attributes are kept |
| Sources.FullSourceDetailsDefaults | src/ui/utils/sources.ts:9-22 | without them, the canonical id is the source's own id and the link lists are empty |
| Sources.FullSourceDetailsOverrides | src/ui/utils/sources.ts:9-22 | given attributes override the defaults |
| Sources.Connect | src/ui/utils/sources.ts:59-61 | an edge is appended to the outgoing list of its start and the incoming list of its end, and no other list changes |
| Sources.ConnectAllEdges | src/ui/utils/sources.ts:59-61 | connecting a source to several targets appends them all, in order, to its outgoing list |
| Sources.GeneratedEdges | src/ui/utils/sources.ts:50-62 | each source's generated list holds the generated ids of its non-pretty-printed entries, in order |
| Sources.BuildGenerated | src/ui/utils/sources.ts:49-62 | the loop builds that graph |
| Sources.OfKind | src/ui/utils/sources.ts:66 | exactly the sources of one kind, in order |
| Sources.LinkStepOk | src/ui/utils/sources.ts:68-76 | linking an inline script or source-mapped source succeeds exactly when the generated graph has the end the source needs |
| Sources.AllLinkableSnoc | src/ui/utils/sources.ts:68-76 | a list is linkable exactly when its prefix is and its last source is |
| Sources.LinkAllSucceeds | src/ui/utils/sources.ts:68-76 | linking a list (`LinkAll`) succeeds exactly when every source in it is linkable |
| Sources.LinkAllThrows | src/ui/utils/sources.ts:68-76 | once linking fails on a prefix, the rest is never processed |
| Sources.Link | src/ui/utils/sources.ts:68-76 | the loop links as specified, stopping at the first failure |
| Sources.ById | src/ui/utils/sources.ts:31 | an entry for exactly the ids present, each holding a source with that id |
| Sources.ContentHashFor | src/ui/utils/sources.ts:79-83 | a source's own hash unless it is pretty-printed, in which case it is the hash of its first generated source, when that exists |
| Sources.CorrespondingThrows | src/ui/utils/sources.ts:89-95 | once a key cannot be computed, the rest is never processed |
| Sources.CorrespondingMembers | src/ui/utils/sources.ts:89-95 | each key of the table (`CorrespondingOf`) lists exactly the ids of the sources with that key |
| Sources.BuildCorresponding | src/ui/utils/sources.ts:89-95 | the loop builds the key table as specified |
| Sources.BuildPrettyLinks | src/ui/utils/sources.ts:99-104 | the loop adds the pretty-printing links as specified |
| Sources.FollowNSnoc | src/ui/utils/sources.ts:37-47 | following one more link from where n links led |
| Sources.FollowNStays | src/ui/utils/sources.ts:37-47 | once the walk stops, further steps stay there |
| Sources.CanonicalOfUnique | src/ui/utils/sources.ts:37-47 | a source has at most one canonical id |
| Sources.FindCanonicalId | src/ui/utils/sources.ts:37-47 | the loop returns the canonical id, which is the source itself when it has no canonical link |
| Sources.BuildKeys | src/ui/utils/sources.ts:85-95 | when the tables can be built, every source's key is readable |
| Sources.NewSourcesToCompleteSourceDetails | src/ui/utils/sources.ts:28-121 | fails exactly when building the tables (`Build`) fails; otherwise one entry per source id, holding the details of the last source with that id |
| Sources.AssembledStep | src/ui/utils/sources.ts:106-118 | adding one source's details keeps the table equal to its specification (`Expected`) |
| Sources.AssembleDetails | src/ui/utils/sources.ts:106-118 | the loop assembles the details as specified |
| Sources.ExpectedCorresponding | src/ui/utils/sources.ts:89-118 | a source is among its own corresponding sources, which are exactly the sources sharing its key |
| Sources.CorrespondingShared | src/ui/utils/sources.ts:89-118 | sources sharing a key share their list of corresponding sources |
| Sources.PrettyPrintedNotGenerating | src/ui/utils/sources.ts:55-57 | a pretty-printed source has no generated edge of its own |
| Sources.GeneratedIdsOfPretty | src/ui/utils/sources.ts:55-57 | and its generated-id list is empty |
| Suspense.FirstThrower | packages/bvaughn-architecture-demo/src/utils/suspense.ts:63-75 | the position of the first callback that throws, every earlier one returning, or the count when none throws |
| Suspense.CallsToAt | packages/bvaughn-architecture-demo/src/utils/suspense.ts:63-75 | one call per callback, in order, each with the same argument |
| Suspense.Add | packages/bvaughn-architecture-demo/src/utils/suspense.ts:19-20 | adding to a set: the members are the old ones and the new one, with no repeats |
| Suspense.Wakeable.constructor | packages/bvaughn-architecture-demo/src/utils/suspense.ts:8-15 | an unresolved wakeable with no callbacks |
| Suspense.Wakeable.Then | packages/bvaughn-architecture-demo/src/utils/suspense.ts:16-29 | while unresolved both callbacks are registered; once settled, only the matching callback is called, at once, with the data |
| Suspense.Wakeable.Notify | packages/bvaughn-architecture-demo/src/utils/suspense.ts:63-75 | the callbacks are called in order until the first that throws, which ends the loop |
| Suspense.Wakeable.Resolve | packages/bvaughn-architecture-demo/src/utils/suspense.ts:55-79 | a settled wakeable refuses with "Wakeable has already been" and its status, changing nothing; otherwise it is resolved before the callbacks run, and both sets are cleared unless a callback threw |
| Suspense.Wakeable.Reject | packages/bvaughn-architecture-demo/src/utils/suspense.ts:30-54 | the same with the error and the reject callbacks |
| Suspense.SettlesOnce | packages/bvaughn-architecture-demo/src/utils/suspense.ts:30-79 | after a resolve, even one whose callback threw, a reject is refused, the value stays and a later then hands it to its resolve callback |
| Suspense.LastThrown | packages/bvaughn-architecture-demo/src/utils/suspense.ts:92-105 | nothing exactly when every callback returns; otherwise the error of the last callback that threw |
| Suspense.ReturnedAll | packages/bvaughn-architecture-demo/src/utils/suspense.ts:92-107 | when all callbacks return, the result holds every value, in order |
| Suspense.SuspendInParallel | packages/bvaughn-architecture-demo/src/utils/suspense.ts:89-108 | every callback is called; the result is the last thrown error, if any, and otherwise the values in order |
| AsyncValue.Pending | src/devtools/client/debugger/src/utils/async-value.ts:16-18 | a pending entry, neither fulfilled nor rejected |
| AsyncValue.Fulfilled | src/devtools/client/debugger/src/utils/async-value.ts:19-21 | a fulfilled entry holding the value |
| AsyncValue.Rejected | src/devtools/client/debugger/src/utils/async-value.ts:22-24 | a rejected entry holding the value |
| AsyncValue.TagsExclusive | src/devtools/client/debugger/src/utils/async-value.ts:49-57 | no entry is in two states at once |
| AsyncValue.AsSettled | src/devtools/client/debugger/src/utils/async-value.ts:26-47 | a pending status entry becomes null; anything else is returned unchanged |
| AsyncValue.AsSettledOfConstructors | src/devtools/client/debugger/src/utils/async-value.ts:26-47 | pending becomes null, fulfilled and rejected entries are kept |
| AsyncValue.AsSettledIdempotent | src/devtools/client/debugger/src/utils/async-value.ts:26-47 | applying it twice is applying it once |
| AsyncValue.AsyncActionAsValue | src/devtools/client/debugger/src/utils/async-value.ts:64-74 | "start" gives pending, "error" gives a rejection with the action's error, anything else a fulfilment with its value |
| NodeSelection.FirstTarget | src/devtools/client/framework/selection.js:79-86 | the target of the first mutation of the type, present exactly when some mutation has that type |
| NodeSelection.Selection.constructor | src/devtools/client/framework/selection.js:56-66 | no node selected, not slotted, no reason and no events yet |
| NodeSelection.Selection.SetNodeFront | src/devtools/client/framework/selection.js:118-144 | a node that is not loaded fails the assertion and changes nothing; otherwise the reason is recorded, and unless nothing was and nothing is selected the node and slotted flag are set and "new-node-front" is emitted |
| NodeSelection.Selection.OnMutations | src/devtools/client/framework/selection.js:69-102 | appends the event list `MutationEvents`: it emits "attribute-changed" when an attribute changed, "pseudoclass" when a pseudo-class lock changed and "detached-front" when a child list changed while the selection was not connected (carrying the first child-list target when a node is selected), each once and in that order, and changes nothing else |
| NodeSelection.MutationEventsExact | src/devtools/client/framework/selection.js:69-102 | `MutationEvents`: each event is emitted exactly when its kind of mutation occurred ("detached-front" only while not connected), and none twice |
| NodeSelection.HasTypeSnoc | src/devtools/client/framework/selection.js:75-90 | one more mutation adds its type to the types seen |
| NodeSelection.FirstTargetSnoc | src/devtools/client/framework/selection.js:79-86 | one more mutation changes the first target only when its type was not yet seen |
| NodeSelection.HasTypeTail | src/devtools/client/framework/selection.js:75-90 | a leading mutation of another type does not affect whether the type is present |
| NodeSelection.NoNodeNoTests | src/devtools/client/framework/selection.js:150-284 | with nothing selected every node test is false |
| NodeSelection.NodeTypeTestsExact | src/devtools/client/framework/selection.js:169-276 | with the comment test as intended, exactly the test of the node's own type holds |
| NodeSelection.CommentNodeAsWritten | src/devtools/client/framework/selection.js:223-228 | the comment test misses comments and accepts processing instructions |
| NodeSelection.PseudoElementAsWritten | src/devtools/client/framework/selection.js:177-179 | the pseudo-element test accepts ordinary nodes and rejects pseudo-elements |
| NodeSelection.PseudoElementIntended | src/devtools/client/framework/selection.js:177-179 | the intended test holds exactly for a selected node with a pseudo type |
| ConsoleConnection.ConvertProtocolValue | src/devtools/client/webconsole/webconsole-connection-proxy.js:32-44 | an object becomes undefined; otherwise an unserializable number, a big integer or the plain value, in that priority |
| ConsoleConnection.ConvertIgnoresLowerFields | src/devtools/client/webconsole/webconsole-connection-proxy.js:32-44 | fields below the first present one do not matter |
| ConsoleConnection.ConvertAll | src/devtools/client/webconsole/webconsole-connection-proxy.js:53-55 | each argument converted, in order |
| ConsoleConnection.FindFrame | src/devtools/client/webconsole/webconsole-connection-proxy.js:20 | the first frame with the id, or none exactly when no frame has it |
| ConsoleConnection.ConvertFramesCorrect | src/devtools/client/webconsole/webconsole-connection-proxy.js:19-28 | a stack converts exactly when every frame id names a frame, entry by entry in order |
| ConsoleConnection.ConvertStack | src/devtools/client/webconsole/webconsole-connection-proxy.js:15-29 | null without a stack; otherwise one entry per frame id, failing exactly when an id names no frame |
| ConsoleConnection.MessagePacket | src/devtools/client/webconsole/webconsole-connection-proxy.js:47-78 | the packet is built exactly when there is no stack or a non-empty stack of known frames; the level flags follow the level |
| ConsoleConnection.AtMostOneLevelFlag | src/devtools/client/webconsole/webconsole-connection-proxy.js:67-69 | at most one of the warning, error and info flags is set |
| RuleFronts.MakeRuleFront | src/protocol/thread/rule.js:4-10 | built exactly when the data has a preview with a rule, which the front keeps |
| RuleFronts.TrimStartIndex | src/protocol/thread/rule.js:38 | the leading white space ends at the first character that is not white space |
| RuleFronts.TrimEndIndex | src/protocol/thread/rule.js:38 | the trailing white space starts after the last character that is not white space |
| RuleFronts.Trim | src/protocol/thread/rule.js:38 | a trimmed slice of the text with only whitespace around it |
| RuleFronts.TrimTrimmed | src/protocol/thread/rule.js:38 | trimming a trimmed text changes nothing |
| RuleFronts.TrimIdempotent | src/protocol/thread/rule.js:38 | trimming twice is trimming once |
| RuleFronts.TrimAll | src/protocol/thread/rule.js:38 | each part trimmed, in order |
| RuleFronts.Selectors | src/protocol/thread/rule.js:37-39 | defined exactly when the selector text is a string; then one selector per comma-separated piece, each that piece trimmed |
| RuleFronts.SelectorsRoundTrip | src/protocol/thread/rule.js:37-39 | joining trimmed, comma-free selectors with "," and reading them back gives them back |
| RuleFronts.TrimAllTrimmed | src/protocol/thread/rule.js:38 | trimming trimmed parts changes nothing |
| RuleFronts.Style | src/protocol/thread/rule.js:41-46 | the style's front when the rule has a style, and none otherwise |
| RuleFronts.ParentStyleSheet | src/protocol/thread/rule.js:48-53 | the parent sheet's front when the rule has one, and none otherwise |
| RuleFronts.Href | src/protocol/thread/rule.js:55-60 | the original location's href, else the parent sheet's, else null |
| RuleFronts.IsSystem | src/protocol/thread/rule.js:65-67 | the parent sheet's system flag, or null without a sheet |
| RuleFronts.Position | src/protocol/thread/rule.js:69-81 | a position field from the original location when there is one, and from the rule otherwise |
| RuleFronts.Line | src/protocol/thread/rule.js:69-74 | the original location's startLine when there is a truthy one, the rule's own otherwise |
| RuleFronts.Column | src/protocol/thread/rule.js:76-81 | the original location's startColumn when there is a truthy one, the rule's own otherwise |
| RuleFronts.OriginalLocationWins | src/protocol/thread/rule.js:55-81 | with an original location, the href, line and column all come from it |
| RuleFronts.NoLocationFallback | src/protocol/thread/rule.js:55-81 | without an original location or sheet, the href and system flag are null and the line and column are the rule's own |
| AppReducer.InitialAppState | src/ui/reducers/app.ts:6-21 | light theme, loading at 4, nothing recorded, uploading or shown in a modal, and the toolbox, split console and panel from the preferences |
| AppReducer.Update | src/ui/reducers/app.ts:23-73 | an action that sets a field is seen by that field's selector with the action's value; an unrecognised action returns the state, or the initial state when there is none |
| AppReducer.SelectorsDetermineState | src/ui/reducers/app.ts:75-85 | the selectors (`Select`) together see the whole state: two states they agree on are equal |
| AppReducer.UpdateChangesOnlyItsField | src/ui/reducers/app.ts:23-85 | each action is seen by its own selector, which reads the action's value, and by no other |
| AppReducer.UnknownActionKeepsState | src/ui/reducers/app.ts:69-71 | an unknown action returns the state unchanged |
| AppReducer.UpdateIdempotent | src/ui/reducers/app.ts:23-73 | applying an action twice is applying it once |
| AppReducer.UpdatesCommute | src/ui/reducers/app.ts:23-73 | actions on different fields commute |
| LegacyAppReducer.InitialAppState | src/ui/reducers/app.js:3-11 | light theme, loading at 4, no tooltip, and the split console and panel from the preferences |
| LegacyAppReducer.Update | src/ui/reducers/app.js:13-35 | the tooltip is never changed; an unrecognised action returns the state, or the initial state when there is none |
| LegacyAppReducer.UpdateChangesOnlyItsField | src/ui/reducers/app.js:13-49 | each action is seen by its own getter and by no other, and the tooltip never changes |
| LegacyAppReducer.UnknownActionKeepsState | src/ui/reducers/app.js:31-33 | an unknown action returns the state unchanged |
| LegacyAppReducer.FirstActionOnInitialState | src/ui/reducers/app.js:13 | without a state the first action applies to the initial one |
| TestRunner.ToNumber | test/run.js:36 | unary plus: a missing argument is NaN and a run of digits is its value |
| TestRunner.ToNumberOfIntToString | test/run.js:36 | an integer written out reads back as itself |
| TestRunner.ParseUsage | test/run.js:32-57 | the usage is printed exactly when the parse (`Parse`) meets an option it does not recognise |
| TestRunner.ParseFlags | test/run.js:41-50 | after a full parse the viewer is recorded exactly when it was already, or "--record-viewer" or "--record-all" was given, and the same for examples |
| TestRunner.ParsePatterns | test/run.js:38-40 | each "--pattern" appends one pattern, after the earlier ones |
| TestRunner.DigitRun | test/run.js:71 | the longest run of digits from a position |
| TestRunner.Exec | test/run.js:71 | the leftmost "digits/digits" match from a position, none exactly when there is none |
| TestRunner.DigitRunOfDigits | test/run.js:71 | a maximal run of digits is found whole |
| TestRunner.MatchOfDigits | test/run.js:71 | "a/b" in digits matches at the start with groups a and b |
| TestRunner.StripeRoundTrip | test/run.js:71-73 | "index/count" written in decimal reads back as that stripe |
| TestRunner.ApplyStripe | test/run.js:70-77 | a stripe without a match throws; otherwise the index and count are taken from it and the viewer is recorded, while the flag read when tests run is left as it was and only the misspelled one is set; the count, patterns and server are kept |
| TestRunner.ApplyStripeIntended | test/run.js:70-77 | with the intended flag, a matching stripe sets the index and count and records both the viewer and the examples, keeping the misspelled flag, the count, patterns and server |
| TestRunner.ProcessEnvironment | test/run.js:62-81 | no stripe only sets the server; a stripe succeeds exactly when it matches and then sets the index and count and records the viewer, and the examples flag as written or as intended; the server is the given one, else the default, and the count and patterns are kept |
| TestRunner.StripesPartition | test/run.js:95-97 | with a stripe count, a test runs here (`RunsHere`) exactly when its index matches its position modulo the count, and an index at or past the count runs nothing |
| TestRunner.StripedExampleNotRerecorded | test/run.js:76 | as written, a striped run reuses a saved example recording; as intended it records the example again |
| TestRunner.TestEnvOf | test/run.js:103-114 | the example is recorded when asked to or when no recording is saved, and the URL then opens the example, otherwise the saved recording |
| TestRunner.SkipsFewerPatterns | test/run.js:124-129 | a test skipped (`Skips`) under more patterns is skipped under fewer |
| TestRunner.NameMatchRuns | test/run.js:124-129 | a pattern found in the test's name keeps it |
| TestRunner.EmptyPatternRunsAll | test/run.js:124-129 | the empty pattern keeps every test |
| TestRunner.ExitCode | test/run.js:251 | 1 exactly when a test failed, otherwise 0 |
| TestRunner.Passes | test/run.js:240-242 | the number of passes is the count when it is a positive number, and none otherwise |
| TestRunner.Runner.constructor | test/run.js:15-20 | the settings start at their defaults; the flag choosing the intended stripe handling is kept |
| TestRunner.Runner.ApplyOption | test/run.js:34-50 | a known option sets exactly the setting the parse gives it (the next argument is its value for --count and --pattern) |
| TestRunner.Runner.ProcessArgs | test/run.js:22-58 | the loop applies the arguments after the first two as the parse does, and exits exactly when the parse prints the usage |
| TestRunner.Runner.ProcessEnvironmentVariables | test/run.js:62-81 | throws exactly when the stripe does not match, changing nothing; otherwise the settings are those of the environment, as written or as intended |
| TestRunner.Runner.MatchingTests | test/run.js:91-118 | the loop keeps exactly the manifest indexes this stripe runs, in increasing order |
| AuthProps.SplitTwo | packages/bvaughn-architecture-demo/pages/_app.tsx:50 | at most two pieces, the first ones of the full split, and two exactly when the separator occurs |
| AuthProps.CountPositive | packages/bvaughn-architecture-demo/pages/_app.tsx:50 | a character occurs exactly when it is counted |
| AuthProps.ApiKey | packages/bvaughn-architecture-demo/pages/_app.tsx:46-56 | no header gives no key; a key is never empty and has no space |
| AuthProps.SplitTwoOf | packages/bvaughn-architecture-demo/pages/_app.tsx:50 | "scheme rest" splits into the scheme and the first word of the rest |
| AuthProps.FirstPiece | packages/bvaughn-architecture-demo/pages/_app.tsx:50 | a word followed by nothing or a space is the first piece |
| AuthProps.ApiKeyOfHeader | packages/bvaughn-architecture-demo/pages/_app.tsx:49-56 | "scheme token" gives the token exactly when the scheme is "Bearer" in any case and the token is not empty |
| AuthProps.ApiKeyIgnoresTrailingPieces | packages/bvaughn-architecture-demo/pages/_app.tsx:50 | words after the token are ignored |
| AuthProps.Assign | packages/bvaughn-architecture-demo/pages/_app.tsx:54 | the key is set to the value, every other key reads as before, and no other key appears |
| AuthProps.HasKeyCons | packages/bvaughn-architecture-demo/pages/_app.tsx:58 | a member in front is found first |
| AuthProps.InitialProps | packages/bvaughn-architecture-demo/pages/_app.tsx:44-59 | as intended: the api key is the header's token or undefined, and every other prop is the one the base application's props resolve to |
| AuthProps.InitialPropsAsWritten | packages/bvaughn-architecture-demo/pages/_app.tsx:45-58 | as written the props hold the api key alone, since the spread Promise contributes no members |
| AuthProps.AsWrittenDropsBaseProps | packages/bvaughn-architecture-demo/pages/_app.tsx:45-58 | any base prop other than the api key survives as intended and is lost as written |
| AuthProps.HeaderDecidesApiKey | packages/bvaughn-architecture-demo/pages/_app.tsx:44-59 | the api key depends on the header alone |

## Left out

- Rendering, React components, JSX, the DOM, canvas drawing, CodeMirror, and the Redux store and dispatch plumbing. These are presentation and glue, with no rule of their own to state.
- I/O, the WebSocket itself, JSON parsing and printing, process spawning, HTTP requests and file writes in the test runner. Sent messages and remote calls are outbound logs. Responses are methods the environment calls later.
- Promise scheduling and timers. An awaited call is split into the call that starts it and the method for its completion. The Timeline playback loop is a step function of the clock value. The awaited retry of `addMappedLocation` is the pair of its request and `MappingArrivedState`, the step for the answer.
- `Math.random` and `Date.now` are inputs. This covers the random part of log group ids and of random logpoints, and the clock of the playback loop.
- Modules outside the core are parameters or assumptions of the model. `pointPrecedes` and `pointEquals` (protocol/execution-point-utils.js) are not part of this model; `Precedes` is a lexicographic order on checkpoint, progress and position, used only through its order lemmas. `isSimilarTab`, lodash `sortBy`, `isPretty`, `getWarningGroupType`, `getScriptURL`, `getDOMFront` and the Timeline's `mostRecentPaintOrMouseEvent` lookup become parameters, fields or maps. The lodash `sortBy` of the inline previews is an already sorted input. The `./graph` helper of sources.ts is a map from an id to its list of edges.
- IEEE-754 numbers. Times and positions are `real`, with explicit guards where the code divides by a width that may be 0. NaN and the infinities appear only where the code produces them: a NaN count and the unbounded end line of the viewport.
- ReplayPlayer.Player.OnPlayerMouseUp: the zoom edges are points and never null. With alt held, no zoomed region and no hover point (before the first mouse move, or after `onPlayerMouseLeave`), the code sets the edge to the null `hoverPoint` (src/timeline/WebReplayPlayer.js:566-568, 410-411); the model keeps the old edge.
- NodeSelection.Selection: the event emitter is an event log. `destroy` has an empty body and is not modelled. The defaults of `setNodeFront` (reason "unknown", not slotted) are the caller's: the method takes both explicitly.
- Tabs.Move: lodash `move` is not part of this model. `Move` defines it for an index that exists; a target past the end puts the tab last.
- Tabs.Update: when no tab has the moved URL or source id the list is kept. The code then passes index -1 to lodash `move`, whose behaviour for it is outside this model.
- Tabs.NewSelectedSourceId: states only the empty cases and that a non-empty result names a known source. The clamped fallback index is stated on `NewSelectedIndex`.
- Graphics.GraphicsAtTime: requires the mouse and click series to hold mouse events only, which `onMouseEvents` guarantees.
- Graphics.MouseOverlay: requires mouse events only, for the same reason.
- EditorLines.LocationsInViewport: requires a positive character width, which CodeMirror always reports. `scrollToColumn` and `isVisible` depend on CodeMirror geometry and are not modelled. `toSourceLine` is `FromEditorLine`.
- Timeline.LeftOffset: requires a positive marker width. The code uses the fixed timeline marker width, a constant outside this model.
- ConsoleMessages.VisibleMessages: requires every visible id to have a message. The store keeps the two together. The same holds for `GetMessages`, `ClosestMessage` and `GetClosestMessage`.
- Sources.FindCanonicalId: requires that following first canonical edges reaches an id with no edge or a self-loop. On a longer cycle the source loops forever. `NewSourcesToCompleteSourceDetails` requires the same of every source.
- Sources.BuildPrettyLinks: `FirstGenerated` falls back to the id "undefined" for a pretty-printed source with no generated source; in the code that id is a graph key (src/ui/utils/sources.ts:101). The case never arises, because the content hash (src/ui/utils/sources.ts:79-82) has already thrown for such a source.
- Logpoint.ResultCalls: the calls are listed in result order. The code issues them from an async `forEach`, each after awaiting its own `getPreferredMappedLocation` (src/protocol/logpoint.js:64-72), so they reach the handler in the order those lookups resolve, which this model does not capture.
- Logpoint.PointLoadingCalls: likewise listed in point order, while each call waits for its own `getPreferredLocation` (src/protocol/logpoint.js:98-101).
- Logpoint.LogpointRegistry.AnalysisCreated: requires a creation that was started and not yet answered, because the protocol answers each request once.
- ProtocolSocket.Dispatch: a response whose id has no waiter is `MissingWaiter`. It stands for the TypeError that the handler's `makeInfallible` wrapper catches and logs. The optional `sessionId` of a message is carried but not interpreted.
- CachedForms/Events: the form store compares actor keys by value; a JavaScript `Map` compares object keys by identity.
- InlinePreview.Step: the code tests `displayValue === value` (src/devtools/client/debugger/src/actions/pause/inlinePreview.js:239), which for objects is identity; the model compares values structurally, so a walked value structurally equal to the binding but a different object steps in the model and not in the code. The same holds for `GetExpressionNameAndValue`.
- CachedForms.ReplaceRefs: modelled on values. It returns the rewritten tree rather than rewriting the packet in place, so aliasing between packets is not captured.
- Events.IntValue: reads a non-number as 0. The protocol only sends integral numbers for lines and columns.
- PacketCompare.CompareObjects: compares key sets where the code compares sorted key lists. The two agree because the keys of a JavaScript object are distinct.
- QuickOpen.FormatSourceForList: `getSourceQueryString` is not part of this model; its answer is the `queryString` field. The title (`getFilename`), the subtitle cut to 100 characters by `endTruncateStr`, and the non-tab icon's class names (`getSourceClassnames`) are not modelled; the entry records only whether the tab icon is shown.
- QuickOpen.ParseInt: skips only spaces, tabs, line feeds and carriage returns as leading white space, a subset of what `parseInt` skips.
- TestRunner.ToNumber: reads only the empty text (as 0) and an optionally signed run of decimal digits; anything else becomes NaN. Unary `+` also reads hexadecimal, binary and octal prefixes, fractions, exponent forms such as "1e3", "Infinity" and surrounding white space.
- ConsoleConnection.ConvertProtocolValue: keeps an unserializable number as the protocol's text ("NaN", "-0", "Infinity") rather than as a floating-point value.
- ConsoleMessages: the message type strings "command" and "result" and the source "console-api" are written out. The webconsole constants module is not part of this model. `isError` is a field of the message.
- InlinePreview.GetBindingValues: the outer loop over scope levels that awaits `loadObjectProperties` and `getScopes` is not modelled; each level's properties are an input. The `ownProperties` of arrays are not treated specially.
- Suspense.SuspendInParallel: thrown values are error texts. A callback that throws `null` is not modelled; the code's `thrownValue !== null` test would then return the values as if nothing had thrown. A thrown `undefined` is rethrown like any other value. Callbacks that re-enter the wakeable are not modelled.
- AuthProps.InitialProps: `NextApp.getInitialProps` is not part of this model; the props it resolves to are a parameter. The code spreads the Promise without awaiting it (see "## Findings").
- The `DisallowEverythingProxyHandler` of the architecture demo and the `window.outstanding` debugging helpers of the socket.
- Quirks kept as written. Playback in the Timeline restarts at 0, not at the zoom start (src/ui/components/Timeline/index.js:359). `goToNextPaint` steps back and `goToPrevPaint` steps forward. `isAnonymousNode` is always false.
- `executionPointTime` (src/timeline/WebReplayPlayer.js:160-174) sets up an interpolation between the times of the window around a point, but never interpolates (see "## Findings"). The model follows the code, and interpolation is available behind the `intended` flag.

## Findings

| source | as written | input that shows it | evidently intended | confidence | as-written member | corrected member |
|---|---|---|---|---|---|---|
| src/protocol/graphics.js:73 | `insertEntrySorted` finds the insertion index by searching the paint series, whatever series it inserts into | mouse series with one event at time 5, a paint series of only the seed at 0, then a mouse event at time 1: it is placed after 5 | search the series being inserted into, which keeps it sorted | not executed | Graphics.MouseInsertCanUnsort | Graphics.InsertKeepsSorted |
| src/timeline/WebReplayPlayer.js:166-167 | the fraction reads `progress` on window records that keep it in `point`, so it is NaN and the earlier time is returned | checkpoint 1 at time 0 and checkpoint 2 at progress 10 and time 1000; the point at progress 5 gets time 0 | interpolate with the points' progress, giving 500 | not executed | ReplayPlayer.ExecutionPointTimeNeverInterpolates | ReplayPlayer.InterpolatedTimeWithinWindow |
| src/timeline/WebReplayPlayer.js:589 | `doPrevious` compares the checkpoint number with a point, which never holds | point (2, 0), the start of checkpoint 2: "previous" seeks to the same point | compare the point with its checkpoint's point and step to the previous checkpoint | not executed | ReplayPlayer.PreviousStaysAtCheckpointStart | ReplayPlayer.IntendedPreviousMovesBack |
| test/run.js:76 | INPUT_STRIPE sets the misspelled `shouldRecordExample`, which nothing reads | INPUT_STRIPE "0/2" with a saved recording: the example is not recorded again | set `shouldRecordExamples` | not executed | TestRunner.StripedExampleNotRerecorded | TestRunner.ApplyStripeIntended |
| src/devtools/client/framework/selection.js:177-179 | `isPseudoElementNode` holds when the pseudo type is empty | a node with pseudo type "" passes, one with "::before" fails | hold exactly when the node has a pseudo type | not executed | NodeSelection.PseudoElementAsWritten | NodeSelection.PseudoElementIntended |
| src/devtools/client/framework/selection.js:223-228 | `isCommentNode` tests for a processing instruction | a COMMENT_NODE fails and a PROCESSING_INSTRUCTION_NODE passes | test for COMMENT_NODE | not executed | NodeSelection.CommentNodeAsWritten | NodeSelection.NodeTypeTestsExact |
| packages/bvaughn-architecture-demo/pages/_app.tsx:45,58 | `getInitialProps` spreads the Promise `NextApp.getInitialProps` returns without awaiting it, so the spread adds no members | any request whose base props include `pageProps`: the returned props hold only `apiKey` | await the base call and spread its props | not executed | AuthProps.AsWrittenDropsBaseProps | AuthProps.InitialProps |
