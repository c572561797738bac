// The debugger client's command layer: the table of breakpoints set on the
// replay threads, keyed by location, and the table of registered source
// actors.  Requests sent to every thread are recorded in a log.

module Commands {
  import opened Basics
  import opened JsValues

  datatype BreakpointLocation = BreakpointLocation(sourceUrl: Option<string>, sourceId: Option<string>, line: nat, column: Option<nat>)

  datatype BreakpointOptions = BreakpointOptions(logValue: string, condition: string, logGroupId: Option<string>)

  datatype Breakpoint = Breakpoint(location: BreakpointLocation, options: BreakpointOptions)

  /** Requests sent to every thread (the thread list itself is not modelled). */
  datatype ThreadRequest =
    | SetBreakpointRequest(location: BreakpointLocation, options: BreakpointOptions)
    | RemoveBreakpointRequest(location: BreakpointLocation)
    | PauseOnExceptionsRequest(shouldPause: bool, shouldIgnoreCaught: bool)

  /** `${value}` for an optional string or number: a missing one renders as "undefined". */
  function OptionalText(s: Option<string>): string
  {
    if s.Some? then s.value else "undefined"
  }

  function ColumnText(column: Option<nat>): (r: string)
    ensures ':' !in r
    ensures column.Some? ==> r == NatToString(column.value)
  {
    if column.Some? then DigitsExclude(NatToString(column.value), ':'); NatToString(column.value) else "undefined"
  }

  /** `locationKey`: "sourceUrl:sourceId:line:column", with a missing or empty source id rendered as "". */
  function LocationKey(location: BreakpointLocation): string
  {
    var sourceId := if location.sourceId.Some? then location.sourceId.value else "";
    OptionalText(location.sourceUrl) + ":" + sourceId + ":" + NatToString(location.line) + ":" + ColumnText(location.column)
  }

  /** A missing source id and an empty one give the same key. */
  lemma LocationKeyMissingSourceId(location: BreakpointLocation)
    requires location.sourceId.None?
    ensures LocationKey(location) == LocationKey(location.(sourceId := Some("")))
  {
  }

  /** Two locations with the same key are on the same line and column. */
  lemma LocationKeyDeterminesLineAndColumn(a: BreakpointLocation, b: BreakpointLocation)
    requires LocationKey(a) == LocationKey(b)
    ensures a.line == b.line && a.column == b.column
  {
    KeyFields(a);
    KeyFields(b);
    var ka, kb := Split(LocationKey(a), ':'), Split(LocationKey(b), ':');
    assert NatToString(a.line) == ka[|ka| - 2] == kb[|kb| - 2] == NatToString(b.line);
    assert ColumnText(a.column) == ka[|ka| - 1] == kb[|kb| - 1] == ColumnText(b.column);
  }

  /** The last two ":"-separated fields of a key are the line and the column. */
  lemma KeyFields(location: BreakpointLocation)
    ensures var parts := Split(LocationKey(location), ':');
      |parts| >= 2 && parts[|parts| - 2] == NatToString(location.line) && parts[|parts| - 1] == ColumnText(location.column)
  {
    var sourceId := if location.sourceId.Some? then location.sourceId.value else "";
    var prefix := OptionalText(location.sourceUrl) + ":" + sourceId;
    var line := NatToString(location.line);
    DigitsExclude(line, ':');
    SplitAppend(prefix + ":" + line, ColumnText(location.column), ':');
    SplitAppend(prefix, line, ':');
  }

  /**
   * `maybeGenerateLogGroupId`: a logpoint (non-empty `logValue`) on a target
   * that can rewind gets a fresh log group id; other options are unchanged.
   */
  function MaybeGenerateLogGroupId(options: BreakpointOptions, canRewind: bool, random: string): (r: BreakpointOptions)
    ensures r.logValue == options.logValue && r.condition == options.condition
    ensures options.logValue != "" && canRewind ==> r == options.(logGroupId := Some("logGroup-" + random))
    ensures !(options.logValue != "" && canRewind) ==> r == options
  {
    if options.logValue != "" && canRewind then options.(logGroupId := Some("logGroup-" + random)) else options
  }

  /** `getSourceForActor`: the registered source id; an unknown actor (or an empty id) throws. */
  function SourceForActor(sourceActors: map<string, string>, actor: string): (r: Result<string>)
    ensures r.Ok? <==> actor in sourceActors && sourceActors[actor] != ""
    ensures r.Ok? ==> r.value == sourceActors[actor]
  {
    if actor in sourceActors && sourceActors[actor] != "" then Ok(sourceActors[actor])
    else Throws("Unknown source actor: " + actor)
  }

  /**
   * `getEventListenerBreakpointTypes`: the categories when the call returns an
   * array, otherwise (a thrown call or a non-array answer) the empty list.
   */
  function EventListenerBreakpointTypes(response: Result<Json>): (r: seq<Json>)
    ensures response.Ok? && response.value.JArr? ==> r == response.value.items
    ensures response.Throws? || !response.value.JArr? ==> r == []
  {
    match response
    case Ok(JArr(items)) => items
    case _ => []
  }

  /** The safe getter found for an own property. */
  datatype SafeGetter = SafeGetter(enumerable: Json, writable: Json, getterValue: Json)

  function GetterDescriptor(g: SafeGetter): Json
  {
    JObj([Member("enumerable", g.enumerable), Member("writable", g.writable), Member("value", g.getterValue)])
  }

  /**
   * The merge in `getProperties`: every property with a safe getter becomes a
   * data property holding the getter's value; the others are unchanged.
   */
  method MergeSafeGetters(ownProperties: map<string, Json>, safeGetterValues: map<string, SafeGetter>) returns (r: map<string, Json>)
    ensures r.Keys == ownProperties.Keys + safeGetterValues.Keys
    ensures forall name :: name in safeGetterValues ==> r[name] == GetterDescriptor(safeGetterValues[name])
    ensures forall name :: name in ownProperties && name !in safeGetterValues ==> r[name] == ownProperties[name]
  {
    r := ownProperties;
    var names := safeGetterValues.Keys;
    while names != {}
      invariant names <= safeGetterValues.Keys
      invariant r.Keys == ownProperties.Keys + (safeGetterValues.Keys - names)
      invariant forall name :: name in safeGetterValues && name !in names ==> r[name] == GetterDescriptor(safeGetterValues[name])
      invariant forall name :: name in ownProperties && name !in safeGetterValues ==> r[name] == ownProperties[name]
      invariant forall name :: name in names && name in ownProperties ==> r[name] == ownProperties[name]
      decreases names
    {
      var name :| name in names;
      r := r[name := GetterDescriptor(safeGetterValues[name])];
      names := names - {name};
    }
  }

  class Client {
    var breakpoints: map<string, Breakpoint>
    var sourceActors: map<string, string>
    var requests: seq<ThreadRequest>
    /** Log groups whose console messages were cleared by `maybeClearLogpoint`. */
    var clearedLogGroups: seq<string>
    const canRewind: bool

    constructor(canRewind: bool)
      ensures breakpoints == map[] && sourceActors == map[] && requests == [] && clearedLogGroups == []
      ensures this.canRewind == canRewind
    {
      breakpoints := map[];
      sourceActors := map[];
      requests := [];
      clearedLogGroups := [];
      this.canRewind := canRewind;
    }

    /** `hasBreakpoint`. */
    predicate HasBreakpoint(location: BreakpointLocation)
      reads this
    {
      LocationKey(location) in breakpoints
    }

    /** The log group `maybeClearLogpoint` clears: that of a logpoint already at the location. */
    function ClearedBy(location: BreakpointLocation): (r: seq<string>)
      reads this
      ensures |r| <= 1
      ensures r != [] ==> (LocationKey(location) in breakpoints &&
        breakpoints[LocationKey(location)].options.logGroupId == Some(r[0]) && r[0] != "")
    ensures (LocationKey(location) in breakpoints && breakpoints[LocationKey(location)].options.logGroupId.Some? &&
             breakpoints[LocationKey(location)].options.logGroupId.value != "") ==>
      r == [breakpoints[LocationKey(location)].options.logGroupId.value]
    {
      var key := LocationKey(location);
      if key in breakpoints && breakpoints[key].options.logGroupId.Some? && breakpoints[key].options.logGroupId.value != ""
      then [breakpoints[key].options.logGroupId.value]
      else []
    }

    /** `setBreakpoint`: records the breakpoint under its key and sends it to the threads. */
    method SetBreakpoint(location: BreakpointLocation, options: BreakpointOptions, random: string)
      modifies this
      ensures var options' := MaybeGenerateLogGroupId(options, canRewind, random);
        breakpoints == old(breakpoints)[LocationKey(location) := Breakpoint(location, options')] &&
        requests == old(requests) + [SetBreakpointRequest(location, options')]
      ensures clearedLogGroups == old(clearedLogGroups) + old(ClearedBy(location))
      ensures sourceActors == old(sourceActors)
      ensures HasBreakpoint(location)
    {
      clearedLogGroups := clearedLogGroups + ClearedBy(location);
      var options' := MaybeGenerateLogGroupId(options, canRewind, random);
      breakpoints := breakpoints[LocationKey(location) := Breakpoint(location, options')];
      requests := requests + [SetBreakpointRequest(location, options')];
    }

    /** `removeBreakpoint`: deletes the entry under the location's key. */
    method RemoveBreakpoint(location: BreakpointLocation)
      modifies this
      ensures breakpoints == old(breakpoints) - {LocationKey(location)}
      ensures requests == old(requests) + [RemoveBreakpointRequest(location)]
      ensures clearedLogGroups == old(clearedLogGroups) + old(ClearedBy(location))
      ensures sourceActors == old(sourceActors)
      ensures !HasBreakpoint(location)
    {
      clearedLogGroups := clearedLogGroups + ClearedBy(location);
      breakpoints := breakpoints - {LocationKey(location)};
      requests := requests + [RemoveBreakpointRequest(location)];
    }

    /** `registerSourceActor` (its notification of the pause-data cache is made by the caller). */
    method RegisterSourceActor(actor: string, sourceId: string)
      modifies this
      ensures sourceActors == old(sourceActors)[actor := sourceId]
      ensures sourceId != "" ==> SourceForActor(sourceActors, actor) == Ok(sourceId)
      ensures breakpoints == old(breakpoints) && requests == old(requests) && clearedLogGroups == old(clearedLogGroups)
    {
      sourceActors := sourceActors[actor := sourceId];
    }

    /** `pauseOnExceptions`: the server is told whether to ignore caught exceptions, the negation. */
    method PauseOnExceptions(shouldPauseOnExceptions: bool, shouldPauseOnCaughtExceptions: bool)
      modifies this
      ensures requests == old(requests) + [PauseOnExceptionsRequest(shouldPauseOnExceptions, !shouldPauseOnCaughtExceptions)]
      ensures breakpoints == old(breakpoints) && sourceActors == old(sourceActors) && clearedLogGroups == old(clearedLogGroups)
    {
      requests := requests + [PauseOnExceptionsRequest(shouldPauseOnExceptions, !shouldPauseOnCaughtExceptions)];
    }
  }
}
