// The console's message selectors: the time and execution point of a message,
// the messages inside the zoomed region of the timeline, the messages shown
// as timeline markers, and the message the debugger is paused at (the
// selector version and the console output's own version, which differ in
// skipping evaluations).

module ConsoleMessages {
  import opened Basics
  import opened ExecutionPoints

  /** The message types of evaluations (the constants module is not part of this model). */
  const CommandType := "command"
  const ResultType := "result"

  /** `lastExecutionPoint` of a message: the point and time of its last occurrence. */
  datatype LastExecutionPoint = LastExecutionPoint(point: Option<Point>, time: Option<real>)

  /**
   * A console message.  `isError` stands for the `isError` helper and
   * `warningGroupType` and `parentWarningGroupId` for `getWarningGroupType` and
   * `getParentWarningGroupMessageId`, whose module is not part of this model
   * ("" is no warning group).
   */
  datatype Message = Message(
    id: string,
    messageType: string,
    source: string,
    isError: bool,
    executionPoint: Option<Point>,
    executionPointTime: Option<real>,
    lastExecutionPoint: Option<LastExecutionPoint>,
    warningGroupType: string,
    parentWarningGroupId: string)

  /** A time is truthy when it is present and not 0. */
  predicate TruthyTime(t: Option<real>)
  {
    t.Some? && t.value != 0.0
  }

  /** `messageTime`: the message's own time, else its last occurrence's time, else 0. */
  function MessageTime(msg: Message): (r: real)
    ensures TruthyTime(msg.executionPointTime) ==> r == msg.executionPointTime.value
    ensures !TruthyTime(msg.executionPointTime) && msg.lastExecutionPoint.Some? && TruthyTime(msg.lastExecutionPoint.value.time) ==>
      r == msg.lastExecutionPoint.value.time.value
    ensures r != 0.0 ==> Some(r) == msg.executionPointTime || (msg.lastExecutionPoint.Some? && Some(r) == msg.lastExecutionPoint.value.time)
  {
    if TruthyTime(msg.executionPointTime) then msg.executionPointTime.value
    else if msg.lastExecutionPoint.Some? && TruthyTime(msg.lastExecutionPoint.value.time) then msg.lastExecutionPoint.value.time.value
    else 0.0
  }

  /** `messageExecutionPoint`: the message's own point, else its last occurrence's point. */
  function MessageExecutionPoint(msg: Message): (r: Option<Point>)
    ensures msg.executionPoint.Some? ==> r == msg.executionPoint
    ensures r.Some? ==> r == msg.executionPoint || (msg.lastExecutionPoint.Some? && r == msg.lastExecutionPoint.value.point)
  {
    if msg.executionPoint.Some? then msg.executionPoint
    else if msg.lastExecutionPoint.Some? then msg.lastExecutionPoint.value.point
    else None
  }

  /** Every listed id names a stored message (`messages.get(id)` is then never undefined). */
  predicate AllKnown(messages: map<string, Message>, ids: seq<string>)
  {
    forall i :: 0 <= i < |ids| ==> ids[i] in messages
  }

  predicate InWindow(msg: Message, zoomStartTime: real, zoomEndTime: real)
  {
    zoomStartTime <= MessageTime(msg) <= zoomEndTime
  }

  /** `getVisibleMessages`: the visible ids whose time lies in the zoomed region, ends included. */
  function VisibleMessages(messages: map<string, Message>, visible: seq<string>, zoomStartTime: real, zoomEndTime: real): (r: seq<string>)
    requires AllKnown(messages, visible)
    ensures forall id :: id in r <==> id in visible && InWindow(messages[id], zoomStartTime, zoomEndTime)
    ensures Subsequence(r, visible)
    ensures AllKnown(messages, r)
  {
    if visible == [] then []
    else
      var rest := VisibleMessages(messages, visible[1..], zoomStartTime, zoomEndTime);
      if InWindow(messages[visible[0]], zoomStartTime, zoomEndTime) then [visible[0]] + rest else rest
  }

  /** Filtering a list piece by piece gives the same result as filtering it whole. */
  lemma {:induction false} VisibleMessagesAppend(messages: map<string, Message>, a: seq<string>, b: seq<string>, zoomStartTime: real, zoomEndTime: real)
    requires AllKnown(messages, a) && AllKnown(messages, b)
    ensures AllKnown(messages, a + b)
    ensures VisibleMessages(messages, a + b, zoomStartTime, zoomEndTime) ==
      VisibleMessages(messages, a, zoomStartTime, zoomEndTime) + VisibleMessages(messages, b, zoomStartTime, zoomEndTime)
    decreases |a|
  {
    assert forall i :: 0 <= i < |a + b| ==> (a + b)[i] == if i < |a| then a[i] else b[i - |a|];
    if a != [] {
      assert (a + b)[1..] == a[1..] + b;
      VisibleMessagesAppend(messages, a[1..], b, zoomStartTime, zoomEndTime);
    } else {
      assert a + b == b;
    }
  }

  /** `getMessages`: the visible messages themselves, in order. */
  function GetMessages(messages: map<string, Message>, ids: seq<string>): (r: seq<Message>)
    requires AllKnown(messages, ids)
    ensures |r| == |ids|
    ensures forall i :: 0 <= i < |ids| ==> r[i] == messages[ids[i]]
  {
    seq(|ids|, i requires 0 <= i < |ids| => messages[ids[i]])
  }

  predicate ForTimeline(msg: Message)
  {
    msg.source == "console-api" || msg.isError
  }

  /** `getMessagesForTimeline`: the console-api and error messages, in order, each as often as before. */
  function MessagesForTimeline(msgs: seq<Message>): (r: seq<Message>)
    ensures forall m :: m in r <==> m in msgs && ForTimeline(m)
    ensures forall m :: multiset(r)[m] == if ForTimeline(m) then multiset(msgs)[m] else 0
    ensures Subsequence(r, msgs)
  {
    if msgs == [] then []
    else
      var rest := MessagesForTimeline(msgs[1..]);
      assert msgs == [msgs[0]] + msgs[1..];
      if ForTimeline(msgs[0]) then [msgs[0]] + rest else rest
  }

  /** Evaluations, which the selector's scan passes over. */
  predicate IsEvaluation(msg: Message)
  {
    msg.messageType == CommandType || msg.messageType == ResultType
  }

  /** Whether the scan looks at `msg` at all. */
  predicate Scanned(msg: Message, skipEvaluations: bool)
  {
    !(skipEvaluations && IsEvaluation(msg))
  }

  /** A scanned message whose point follows the paused point ends the scan; one without a point never does. */
  predicate StopsScan(msg: Message, executionPoint: Point, skipEvaluations: bool)
  {
    Scanned(msg, skipEvaluations) && MessageExecutionPoint(msg).Some? && Precedes(executionPoint, MessageExecutionPoint(msg).value)
  }

  /** A scanned message that does not end the scan becomes the candidate. */
  predicate Candidate(msg: Message, executionPoint: Point, skipEvaluations: bool)
  {
    Scanned(msg, skipEvaluations) && !StopsScan(msg, executionPoint, skipEvaluations)
  }

  /** The loop of `getClosestMessage` from `ids` on, with `last` the candidate so far. */
  function Scan(messages: map<string, Message>, ids: seq<string>, executionPoint: Point, skipEvaluations: bool, last: Message): Message
    requires AllKnown(messages, ids)
  {
    if ids == [] then last
    else
      var msg := messages[ids[0]];
      if !Scanned(msg, skipEvaluations) then Scan(messages, ids[1..], executionPoint, skipEvaluations, last)
      else if StopsScan(msg, executionPoint, skipEvaluations) then last
      else Scan(messages, ids[1..], executionPoint, skipEvaluations, msg)
  }

  /**
   * `getClosestMessage`: nothing without a paused point or visible messages;
   * otherwise the scan starting with the first visible message as candidate.
   * The selector skips evaluations (`skipEvaluations`), the console output's
   * copy does not.
   */
  function ClosestMessage(messages: map<string, Message>, visible: seq<string>, executionPoint: Option<Point>, skipEvaluations: bool): (r: Option<Message>)
    requires AllKnown(messages, visible)
    ensures r.None? <==> executionPoint.None? || |visible| == 0
  {
    if executionPoint.None? || |visible| == 0 then None
    else Some(Scan(messages, visible, executionPoint.value, skipEvaluations, messages[visible[0]]))
  }

  /** The index of the first message that ends the scan, or `|ids|`. */
  function FirstStop(messages: map<string, Message>, ids: seq<string>, executionPoint: Point, skipEvaluations: bool): (n: nat)
    requires AllKnown(messages, ids)
    ensures n <= |ids|
    ensures forall i :: 0 <= i < n ==> !StopsScan(messages[ids[i]], executionPoint, skipEvaluations)
    ensures n < |ids| ==> StopsScan(messages[ids[n]], executionPoint, skipEvaluations)
  {
    if ids == [] then 0
    else if StopsScan(messages[ids[0]], executionPoint, skipEvaluations) then 0
    else 1 + FirstStop(messages, ids[1..], executionPoint, skipEvaluations)
  }

  /** The index of the last candidate among the first `n` ids, searching backwards. */
  function LastCandidate(messages: map<string, Message>, ids: seq<string>, n: nat, executionPoint: Point, skipEvaluations: bool): (k: Option<nat>)
    requires AllKnown(messages, ids) && n <= |ids|
    ensures k.Some? ==> k.value < n && Candidate(messages[ids[k.value]], executionPoint, skipEvaluations)
    ensures k.Some? ==> forall j :: k.value < j < n ==> !Candidate(messages[ids[j]], executionPoint, skipEvaluations)
    ensures k.None? ==> forall j :: 0 <= j < n ==> !Candidate(messages[ids[j]], executionPoint, skipEvaluations)
  {
    if n == 0 then None
    else if Candidate(messages[ids[n - 1]], executionPoint, skipEvaluations) then Some(n - 1)
    else LastCandidate(messages, ids, n - 1, executionPoint, skipEvaluations)
  }

  /** Searching a list backwards is searching its tail, shifted by one, unless only the head qualifies. */
  lemma {:induction false} LastCandidateShift(messages: map<string, Message>, ids: seq<string>, n: nat, executionPoint: Point, skipEvaluations: bool)
    requires AllKnown(messages, ids) && |ids| > 0 && n < |ids|
    ensures AllKnown(messages, ids[1..])
    ensures LastCandidate(messages, ids, n + 1, executionPoint, skipEvaluations) ==
      match LastCandidate(messages, ids[1..], n, executionPoint, skipEvaluations)
      case Some(k) => Some(k + 1)
      case None => if Candidate(messages[ids[0]], executionPoint, skipEvaluations) then Some(0) else None
    decreases n
  {
    assert AllKnown(messages, ids[1..]) by {
      forall i | 0 <= i < |ids| - 1
        ensures ids[1..][i] in messages
      {
        assert ids[1..][i] == ids[i + 1];
      }
    }
    if n > 0 {
      assert ids[1..][n - 1] == ids[n];
      LastCandidateShift(messages, ids, n - 1, executionPoint, skipEvaluations);
    }
  }

  /**
   * The scan's answer, described without the loop: the last candidate before
   * the first message that ends the scan, or the starting candidate when there
   * is none.
   */
  lemma {:induction false} ScanFindsLastCandidate(messages: map<string, Message>, ids: seq<string>, executionPoint: Point, skipEvaluations: bool, last: Message)
    requires AllKnown(messages, ids)
    ensures Scan(messages, ids, executionPoint, skipEvaluations, last) ==
      match LastCandidate(messages, ids, FirstStop(messages, ids, executionPoint, skipEvaluations), executionPoint, skipEvaluations)
      case Some(k) => messages[ids[k]]
      case None => last
    decreases |ids|
  {
    if ids != [] {
      var msg := messages[ids[0]];
      if !StopsScan(msg, executionPoint, skipEvaluations) {
        LastCandidateShift(messages, ids, FirstStop(messages, ids[1..], executionPoint, skipEvaluations), executionPoint, skipEvaluations);
        var next := if Scanned(msg, skipEvaluations) then msg else last;
        ScanFindsLastCandidate(messages, ids[1..], executionPoint, skipEvaluations, next);
        var k := LastCandidate(messages, ids[1..], FirstStop(messages, ids[1..], executionPoint, skipEvaluations), executionPoint, skipEvaluations);
        if k.Some? {
          assert ids[1..][k.value] == ids[k.value + 1];
        }
      }
    }
  }

  /** The loop of `getClosestMessage` (the selector's, or with `skipEvaluations` false the console output's). */
  method GetClosestMessage(messages: map<string, Message>, visible: seq<string>, executionPoint: Option<Point>, skipEvaluations: bool)
    returns (r: Option<Message>)
    requires AllKnown(messages, visible)
    ensures r == ClosestMessage(messages, visible, executionPoint, skipEvaluations)
  {
    if executionPoint.None? || |visible| == 0 {
      return None;
    }
    var point := executionPoint.value;
    var last := messages[visible[0]];
    var i := 0;
    while i < |visible|
      invariant 0 <= i <= |visible|
      invariant AllKnown(messages, visible[i..])
      invariant Scan(messages, visible[i..], point, skipEvaluations, last) == Scan(messages, visible, point, skipEvaluations, messages[visible[0]])
    {
      var msg := messages[visible[i]];
      assert visible[i..][1..] == visible[i + 1..];
      if skipEvaluations && (msg.messageType == CommandType || msg.messageType == ResultType) {
        i := i + 1;
        continue;
      }
      var msgPoint := MessageExecutionPoint(msg);
      if msgPoint.Some? && Precedes(point, msgPoint.value) {
        break;
      }
      last := msg;
      i := i + 1;
    }
    return Some(last);
  }

  /** `isMessageInWarningGroup`: a message of a warning group whose group message is visible. */
  function InWarningGroup(message: Message, visible: seq<string>): (r: bool)
    ensures r <==> message.warningGroupType != "" && message.parentWarningGroupId in visible
  {
    if message.warningGroupType == "" then false else message.parentWarningGroupId in visible
  }

  /** The render of the console output: each message in the zoomed region with its `isPaused` flag. */
  function RenderedMessages(messages: map<string, Message>, visible: seq<string>, zoomStartTime: real, zoomEndTime: real,
                            pausedExecutionPoint: Option<Point>): (r: seq<(string, bool)>)
    requires AllKnown(messages, visible)
    ensures |r| == |VisibleMessages(messages, visible, zoomStartTime, zoomEndTime)|
    ensures forall i :: 0 <= i < |r| ==> r[i].0 == VisibleMessages(messages, visible, zoomStartTime, zoomEndTime)[i]
    ensures Distinct(visible) ==> forall i, j :: 0 <= i < |r| && 0 <= j < |r| && r[i].1 && r[j].1 ==> i == j
  {
    var shown := VisibleMessages(messages, visible, zoomStartTime, zoomEndTime);
    var paused := ClosestMessage(messages, shown, pausedExecutionPoint, false);
    var r := seq(|shown|, i requires 0 <= i < |shown| => (shown[i], paused.Some? && paused.value.id == shown[i]));
    assert Distinct(visible) ==> Distinct(shown) by {
      if Distinct(visible) {
        SubsequenceDistinct(shown, visible);
      }
    }
    r
  }

  /** With no evaluation among the messages, skipping evaluations changes nothing. */
  lemma {:induction false} ScanWithoutEvaluations(messages: map<string, Message>, ids: seq<string>, executionPoint: Point, last: Message)
    requires AllKnown(messages, ids)
    requires forall i :: 0 <= i < |ids| ==> !IsEvaluation(messages[ids[i]])
    ensures Scan(messages, ids, executionPoint, true, last) == Scan(messages, ids, executionPoint, false, last)
    decreases |ids|
  {
    if ids != [] {
      assert forall i :: 0 <= i < |ids| - 1 ==> ids[1..][i] == ids[i + 1];
      ScanWithoutEvaluations(messages, ids[1..], executionPoint, last);
      ScanWithoutEvaluations(messages, ids[1..], executionPoint, messages[ids[0]]);
    }
  }

  /** The selector and the console output pick the same paused message when no evaluation is visible. */
  lemma SelectorAgreesWithOutput(messages: map<string, Message>, visible: seq<string>, executionPoint: Option<Point>)
    requires AllKnown(messages, visible)
    requires forall i :: 0 <= i < |visible| ==> !IsEvaluation(messages[visible[i]])
    ensures ClosestMessage(messages, visible, executionPoint, true) == ClosestMessage(messages, visible, executionPoint, false)
  {
    if executionPoint.Some? && |visible| > 0 {
      ScanWithoutEvaluations(messages, visible, executionPoint.value, messages[visible[0]]);
    }
  }
}
