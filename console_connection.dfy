// The web console's connection proxy: each console message the thread reports
// becomes a packet for the console UI.  Its protocol values are converted to
// console values and its stack of frame ids to stack-trace entries.

module ConsoleConnection {
  import opened Basics
  import opened JsValues

  /**
   * A protocol value: at most one of its fields is normally set.  Strings
   * that are empty count as absent, as in JavaScript.
   */
  datatype ProtocolValue = ProtocolValue(value: Json, unserializableNumber: string, bigint: string, objectId: string)

  /** A console value: `undefined`, a number written as the protocol's text ("NaN", "-0", ...), a bigint, or a plain value. */
  datatype ConsoleValue = CUndefined | CNumber(text: string) | CBigInt(digits: string) | CValue(v: Json)

  /**
   * `convertProtocolValue`: an object is not yet supported and gives
   * `undefined`; otherwise an unserializable number wins over a bigint, which
   * wins over the plain value.
   */
  function ConvertProtocolValue(pv: ProtocolValue): (r: ConsoleValue)
    ensures pv.objectId != "" <==> r.CUndefined?
    ensures r.CNumber? <==> pv.objectId == "" && pv.unserializableNumber != ""
    ensures r.CNumber? ==> r.text == pv.unserializableNumber
    ensures r.CBigInt? <==> pv.objectId == "" && pv.unserializableNumber == "" && pv.bigint != ""
    ensures r.CBigInt? ==> r.digits == pv.bigint
    ensures r.CValue? <==> pv.objectId == "" && pv.unserializableNumber == "" && pv.bigint == ""
    ensures r.CValue? ==> r.v == pv.value
  {
    if pv.objectId != "" then CUndefined
    else if pv.unserializableNumber != "" then CNumber(pv.unserializableNumber)
    else if pv.bigint != "" then CBigInt(pv.bigint)
    else CValue(pv.value)
  }

  /** Fields below the first one present do not affect the conversion. */
  lemma ConvertIgnoresLowerFields(a: ProtocolValue, b: ProtocolValue)
    requires a.objectId == b.objectId
    requires a.objectId == "" ==> a.unserializableNumber == b.unserializableNumber
    requires a.objectId == "" && a.unserializableNumber == "" ==> a.bigint == b.bigint
    requires a.objectId == "" && a.unserializableNumber == "" && a.bigint == "" ==> a.value == b.value
    ensures ConvertProtocolValue(a) == ConvertProtocolValue(b)
  {
  }

  function ConvertAll(values: seq<ProtocolValue>): (r: seq<ConsoleValue>)
    ensures |r| == |values|
    ensures forall i :: 0 <= i < |values| ==> r[i] == ConvertProtocolValue(values[i])
  {
    if values == [] then [] else [ConvertProtocolValue(values[0])] + ConvertAll(values[1..])
  }

  datatype FrameLocation = FrameLocation(sourceId: string, scriptId: Option<string>, line: int, column: int)

  /** A frame of the message's pause data. */
  datatype Frame = Frame(frameId: string, location: FrameLocation, functionName: string)

  /** A stack-trace entry; the file name is what the thread reports as the source's URL, if anything. */
  datatype StackEntry = StackEntry(filename: Option<string>, sourceId: Option<string>, lineNumber: int, columnNumber: int, functionName: string)

  /** The frame at `i` is the first with id `frameId`. */
  predicate FirstWithId(frames: seq<Frame>, frameId: string, i: int)
  {
    0 <= i < |frames| && frames[i].frameId == frameId &&
    forall j :: 0 <= j < i ==> frames[j].frameId != frameId
  }

  /** `frames.find(f => f.frameId == frameId)`: the first frame with that id. */
  function FindFrame(frames: seq<Frame>, frameId: string): (r: Option<Frame>)
    ensures r.None? <==> forall i :: 0 <= i < |frames| ==> frames[i].frameId != frameId
    ensures r.Some? ==> exists i :: FirstWithId(frames, frameId, i) && frames[i] == r.value
    ensures r.Some? ==> r.value.frameId == frameId
  {
    if frames == [] then None
    else if frames[0].frameId == frameId then Some(frames[0])
    else
      var r := FindFrame(frames[1..], frameId);
      assert forall i :: 0 <= i < |frames| - 1 ==> frames[1..][i] == frames[i + 1];
      if r.Some? then
        assert exists i :: FirstWithId(frames, frameId, i) && frames[i] == r.value by {
          var i :| FirstWithId(frames[1..], frameId, i) && frames[1..][i] == r.value;
          assert FirstWithId(frames, frameId, i + 1);
        }
        r
      else r
  }

  function EntryOf(frame: Frame, scriptURLs: map<string, string>): StackEntry
  {
    StackEntry(
      if frame.location.sourceId in scriptURLs then Some(scriptURLs[frame.location.sourceId]) else None,
      frame.location.scriptId, frame.location.line, frame.location.column, frame.functionName)
  }

  predicate AllFound(stack: seq<string>, frames: seq<Frame>)
  {
    forall i :: 0 <= i < |stack| ==> FindFrame(frames, stack[i]).Some?
  }

  function ConvertFrames(stack: seq<string>, frames: seq<Frame>, scriptURLs: map<string, string>): (r: Result<seq<StackEntry>>)
  {
    if stack == [] then Ok([])
    else
      match FindFrame(frames, stack[0])
      case None => Throws("TypeError")
      case Some(frame) =>
        match ConvertFrames(stack[1..], frames, scriptURLs)
        case Throws(e) => Throws(e)
        case Ok(rest) => Ok([EntryOf(frame, scriptURLs)] + rest)
  }

  /** A stack converts exactly when every frame id names a frame, entry by entry in order. */
  lemma {:induction false} ConvertFramesCorrect(stack: seq<string>, frames: seq<Frame>, scriptURLs: map<string, string>)
    ensures ConvertFrames(stack, frames, scriptURLs).Ok? <==> AllFound(stack, frames)
    ensures ConvertFrames(stack, frames, scriptURLs).Ok? ==>
      var entries := ConvertFrames(stack, frames, scriptURLs).value;
      |entries| == |stack| &&
      forall i :: 0 <= i < |stack| ==> entries[i] == EntryOf(FindFrame(frames, stack[i]).value, scriptURLs)
    decreases |stack|
  {
    if stack != [] {
      var tail := stack[1..];
      ConvertFramesCorrect(tail, frames, scriptURLs);
      AllFoundCons(stack, frames);
      var r, rest := ConvertFrames(stack, frames, scriptURLs), ConvertFrames(tail, frames, scriptURLs);
      if r.Ok? {
        var head := FindFrame(frames, stack[0]);
        assert head.Some? && rest.Ok? && r.value == [EntryOf(head.value, scriptURLs)] + rest.value;
        forall i | 0 <= i < |stack|
          ensures r.value[i] == EntryOf(FindFrame(frames, stack[i]).value, scriptURLs)
        {
          if i > 0 {
            assert stack[i] == tail[i - 1] && r.value[i] == rest.value[i - 1];
          }
        }
      }
    }
  }

  lemma AllFoundCons(stack: seq<string>, frames: seq<Frame>)
    requires stack != []
    ensures AllFound(stack, frames) <==> FindFrame(frames, stack[0]).Some? && AllFound(stack[1..], frames)
  {
    assert forall i :: 1 <= i < |stack| ==> stack[1..][i - 1] == stack[i];
  }

  /**
   * `convertStack`: without a stack, null; with one, each frame id is looked
   * up in the pause data's frames, and an id naming no frame throws (its
   * location is read from `undefined`).
   */
  function ConvertStack(stack: Option<seq<string>>, frames: seq<Frame>, scriptURLs: map<string, string>): (r: Result<Option<seq<StackEntry>>>)
    ensures stack.None? ==> r == Ok(None)
    ensures stack.Some? ==> (r.Ok? <==> AllFound(stack.value, frames))
    ensures r.Ok? && stack.Some? ==> (r.value.Some? && |r.value.value| == |stack.value| &&
      forall i :: 0 <= i < |stack.value| ==> r.value.value[i] == EntryOf(FindFrame(frames, stack.value[i]).value, scriptURLs))
  {
    if stack.None? then Ok(None)
    else
      ConvertFramesCorrect(stack.value, frames, scriptURLs);
      match ConvertFrames(stack.value, frames, scriptURLs)
      case Throws(e) => Throws(e)
      case Ok(entries) => Ok(Some(entries))
  }

  /** A console message as the thread reports it. */
  datatype ConsoleMessage = ConsoleMessage(
    text: string,
    url: string,
    line: int,
    column: int,
    source: string,
    level: string,
    stack: Option<seq<string>>,
    frames: seq<Frame>,
    argumentValues: Option<seq<ProtocolValue>>,
    point: string,
    time: real)

  datatype Packet = Packet(
    errorMessage: string,
    errorMessageName: string,
    sourceName: string,
    sourceId: Option<string>,
    lineNumber: int,
    columnNumber: int,
    category: string,
    warning: bool,
    error: bool,
    info: bool,
    stacktrace: Option<seq<StackEntry>>,
    argumentValues: Option<seq<ConsoleValue>>,
    executionPoint: string,
    executionPointTime: real,
    executionPointHasFrames: bool)

  /**
   * The packet `onConsoleMessage` dispatches.  An empty stack throws, since
   * the source id is read from its missing first entry.
   */
  function MessagePacket(msg: ConsoleMessage, scriptURLs: map<string, string>): (r: Result<Packet>)
    ensures r.Ok? <==> msg.stack.None? || (AllFound(msg.stack.value, msg.frames) && |msg.stack.value| > 0)
    ensures r.Ok? ==> (r.value.warning <==> msg.level == "warning")
    ensures r.Ok? ==> (r.value.error <==> msg.level == "error")
    ensures r.Ok? ==> (r.value.info <==> msg.level == "info")
    ensures r.Ok? ==> (r.value.executionPointHasFrames <==> r.value.stacktrace.Some?)
    ensures r.Ok? ==> (r.value.stacktrace.Some? <==> msg.stack.Some?)
    ensures r.Ok? && msg.stack.Some? ==> r.value.sourceId == FindFrame(msg.frames, msg.stack.value[0]).value.location.scriptId
    ensures r.Ok? && msg.stack.None? ==> r.value.sourceId.None?
    ensures r.Ok? ==> (r.value.argumentValues.None? <==> msg.argumentValues.None?)
    ensures r.Ok? && msg.argumentValues.Some? ==> r.value.argumentValues.value == ConvertAll(msg.argumentValues.value)
    ensures r.Ok? ==> (r.value.errorMessage == msg.text && r.value.sourceName == msg.url &&
      r.value.lineNumber == msg.line && r.value.columnNumber == msg.column && r.value.category == msg.source &&
      r.value.executionPoint == msg.point && r.value.executionPointTime == msg.time)
  {
    match ConvertStack(msg.stack, msg.frames, scriptURLs)
    case Throws(e) => Throws(e)
    case Ok(stacktrace) =>
      var argumentValues := if msg.argumentValues.Some? then Some(ConvertAll(msg.argumentValues.value)) else None;
      if stacktrace.Some? && |stacktrace.value| == 0 then Throws("TypeError")
      else
        var sourceId := if stacktrace.Some? then stacktrace.value[0].sourceId else None;
        Ok(Packet(msg.text, "ErrorMessageName", msg.url, sourceId, msg.line, msg.column, msg.source,
          msg.level == "warning", msg.level == "error", msg.level == "info",
          stacktrace, argumentValues, msg.point, msg.time, stacktrace.Some?))
  }

  /** The three level flags come from one level, so at most one of them is set. */
  lemma AtMostOneLevelFlag(msg: ConsoleMessage, scriptURLs: map<string, string>)
    requires MessagePacket(msg, scriptURLs).Ok?
    ensures var p := MessagePacket(msg, scriptURLs).value;
      (if p.warning then 1 else 0) + (if p.error then 1 else 0) + (if p.info then 1 else 0) <= 1
  {
    var p := MessagePacket(msg, scriptURLs).value;
    assert "warning"[0] != "error"[0] && "warning"[0] != "info"[0] && "error"[0] != "info"[0];
  }
}
