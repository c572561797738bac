// The debugger client's pause-data caches, filled from data the replay
// preloads: step targets and pause packets keyed by execution point, cached
// forms keyed by actor, frame forms waiting for their source actor, the
// source-mapped locations of every source (with the remap state machine) and
// the scopes of locations (queued until their source is loaded).
//
// The source-map and parser services are remote: a request to them is
// appended to a log, and its answer arrives through a separate step.

module Events {
  import opened Basics
  import opened JsValues
  import opened ExecutionPoints
  import opened EventKeys
  import opened CachedForms
  import Commands

  /** The step targets recorded for a point. */
  datatype StepTargetSet = StepTargetSet(stepOver: Json, stepIn: Json, stepOut: Json, reverseStepOver: Json)

  /** A pause packet rebuilt from preloaded data. */
  datatype PausePacket = PausePacket(frames: seq<Json>, environment: Json)

  /** One preloaded-data entry, by its `kind`. */
  datatype PreloadedData =
    | InvalidateStepTargets
    | StepTargets(point: Point, targets: StepTargetSet)
    | PauseData(pausePoint: Point, environment: Json, frames: seq<Json>, forms: seq<Json>)
    | OtherKind(kind: string)

  /** `MappedSourceLocations`: the remapping flag, how often remapping started, and the locations mapped so far. */
  datatype MappedSourceLocations = MappedSourceLocations(remapping: bool, numRemappings: nat, locations: seq<Location>)

  /** A request to the source-map service, with the remap count seen when it was made. */
  datatype MappingRequest = MappingRequest(location: Location, numRemappings: nat)

  /**
   * The caches.  The location tables are keyed by `locationKey(location)` in
   * the client; since that key is injective (`EventKeys.LocationKeyInjective`),
   * they are keyed by the location itself here.
   */
  datatype CacheState = CacheState(
    stepTargets: map<string, StepTargetSet>,
    pausePackets: map<string, PausePacket>,
    cachedForms: map<Json, Json>,
    pendingForms: map<Json, seq<Json>>,
    locationMaps: map<Location, Json>,
    mappedLocations: map<string, MappedSourceLocations>,
    mappingRequests: seq<MappingRequest>,
    locationScopes: map<Location, Json>,
    pendingLocationScopes: map<string, seq<Location>>,
    loadedSourceIds: set<string>,
    scopeRequests: seq<Location>)

  const EmptyCache := CacheState(map[], map[], map[], map[], map[], map[], [], map[], map[], {}, [])

  /** A number as the integer the location key renders; the protocol only sends integral lines and columns. */
  function IntValue(v: Json): int
  {
    if v.JNum? then v.n.Floor else 0
  }

  /** `getSourceForActor` on the value found in a form: only a string actor can be registered. */
  function SourceForActorValue(sourceActors: map<string, string>, actor: Json): (r: Result<string>)
    ensures r.Ok? <==> actor.JStr? && Commands.SourceForActor(sourceActors, actor.s).Ok?
    ensures r.Ok? ==> r.value == sourceActors[actor.s]
  {
    if actor.JStr? then Commands.SourceForActor(sourceActors, actor.s) else Throws("Unknown source actor")
  }

  // ---------------------------------------------------------------------
  // Source-mapped locations

  /** `getMappedSourceLocations`: the source's record, or a fresh one. */
  function GetMapped(mapped: map<string, MappedSourceLocations>, sourceId: string): MappedSourceLocations
  {
    if sourceId in mapped then mapped[sourceId] else MappedSourceLocations(false, 0, [])
  }

  /**
   * The synchronous part of `addMappedLocation`: nothing for a location whose
   * mapping is cached; while its source is being remapped the location is
   * recorded for later; otherwise the source-map service is asked.
   */
  function AddMappedLocationState(s: CacheState, location: Location): (r: CacheState)
    ensures location in s.locationMaps ==> r == s
    ensures r.locationMaps == s.locationMaps && r.locationScopes == s.locationScopes
    ensures r.cachedForms == s.cachedForms && r.pendingForms == s.pendingForms
    ensures location !in s.locationMaps ==> location.sourceId in r.mappedLocations
    ensures r.stepTargets == s.stepTargets && r.pausePackets == s.pausePackets
    ensures |r.mappingRequests| <= |s.mappingRequests| + 1
  {
    if location in s.locationMaps then s
    else
      var info := GetMapped(s.mappedLocations, location.sourceId);
      if info.remapping then
        s.(mappedLocations := s.mappedLocations[location.sourceId := info.(locations := info.locations + [location])])
      else
        s.(mappedLocations := s.mappedLocations[location.sourceId := info],
           mappingRequests := s.mappingRequests + [MappingRequest(location, info.numRemappings)])
  }

  /**
   * The answer to a mapping request: kept when no remap started since the
   * request, otherwise the request is made again (or the location deferred to
   * the remap in progress).
   */
  function MappingArrivedState(s: CacheState, request: MappingRequest, mapped: Json): (r: CacheState)
    ensures var info := GetMapped(s.mappedLocations, request.location.sourceId);
      request.numRemappings == info.numRemappings ==>
        r.locationMaps == s.locationMaps[request.location := mapped] &&
        request.location.sourceId in r.mappedLocations &&
        r.mappedLocations[request.location.sourceId].locations == info.locations + [request.location]
    ensures var info := GetMapped(s.mappedLocations, request.location.sourceId);
      request.numRemappings != info.numRemappings ==> r.locationMaps == s.locationMaps
  {
    var location := request.location;
    var info := GetMapped(s.mappedLocations, location.sourceId);
    if request.numRemappings == info.numRemappings then
      s.(locationMaps := s.locationMaps[location := mapped],
         mappedLocations := s.mappedLocations[location.sourceId := info.(locations := info.locations + [location])])
    else if info.remapping then
      s.(mappedLocations := s.mappedLocations[location.sourceId := info.(locations := info.locations + [location])])
    else
      s.(mappingRequests := s.mappingRequests + [MappingRequest(location, info.numRemappings)])
  }

  function LocationSet(locations: seq<Location>): set<Location>
  {
    set i | 0 <= i < |locations| :: locations[i]
  }

  /**
   * `sourceRemapStart`: throws while a remap is in progress; otherwise marks
   * the source as remapping, counts the remap and forgets the cached mappings
   * of its locations.
   */
  function SourceRemapStartState(s: CacheState, sourceId: string): (r: Result<CacheState>)
    ensures r.Throws? <==> GetMapped(s.mappedLocations, sourceId).remapping
    ensures r.Ok? ==> var info := GetMapped(s.mappedLocations, sourceId);
      r.value == s.(mappedLocations := s.mappedLocations[sourceId := info.(remapping := true, numRemappings := info.numRemappings + 1)],
                    locationMaps := s.locationMaps - LocationSet(info.locations))
  {
    var info := GetMapped(s.mappedLocations, sourceId);
    if info.remapping then Throws("Remapping for source already in progress")
    else
      Ok(s.(mappedLocations := s.mappedLocations[sourceId := info.(remapping := true, numRemappings := info.numRemappings + 1)],
            locationMaps := s.locationMaps - LocationSet(info.locations)))
  }

  /** `locations.forEach(addMappedLocation)`. */
  function AddMappedLocationsState(s: CacheState, locations: seq<Location>): CacheState
    decreases |locations|
  {
    if locations == [] then s else AddMappedLocationsState(AddMappedLocationState(s, locations[0]), locations[1..])
  }

  /**
   * `sourceRemapEnd`: throws unless a remap is in progress (the source's
   * record exists afterwards either way); otherwise clears the flag, empties
   * the location list and adds every location again.
   */
  function SourceRemapEndState(s: CacheState, sourceId: string): (r: (CacheState, Option<string>))
    ensures r.1.Some? <==> !GetMapped(s.mappedLocations, sourceId).remapping
    ensures r.1.Some? ==> r.0 == s.(mappedLocations := s.mappedLocations[sourceId := GetMapped(s.mappedLocations, sourceId)])
  {
    var info := GetMapped(s.mappedLocations, sourceId);
    if !info.remapping then
      (s.(mappedLocations := s.mappedLocations[sourceId := info]), Some("Source is not being remapped"))
    else
      var cleared := s.(mappedLocations := s.mappedLocations[sourceId := info.(remapping := false, locations := [])]);
      (AddMappedLocationsState(cleared, info.locations), None)
  }

  /** Every source's recorded locations lie in that source. */
  predicate LocationsInOwnSource(s: CacheState)
  {
    forall sourceId, i :: sourceId in s.mappedLocations && 0 <= i < |s.mappedLocations[sourceId].locations| ==>
      s.mappedLocations[sourceId].locations[i].sourceId == sourceId
  }

  lemma AddMappedLocationKeepsOwnSource(s: CacheState, location: Location)
    requires LocationsInOwnSource(s)
    ensures LocationsInOwnSource(AddMappedLocationState(s, location))
  {
    if location !in s.locationMaps {
      var info := GetMapped(s.mappedLocations, location.sourceId);
      var m := AddMappedLocationState(s, location).mappedLocations;
      assert m == s.mappedLocations[location.sourceId := info] ||
        m == s.mappedLocations[location.sourceId := info.(locations := info.locations + [location])];
    }
  }

  lemma MappingArrivedKeepsOwnSource(s: CacheState, request: MappingRequest, mapped: Json)
    requires LocationsInOwnSource(s)
    ensures LocationsInOwnSource(MappingArrivedState(s, request, mapped))
  {
  }

  function Requests(locations: seq<Location>, numRemappings: nat): (r: seq<MappingRequest>)
    ensures |r| == |locations|
    ensures forall i :: 0 <= i < |r| ==> r[i] == MappingRequest(locations[i], numRemappings)
  {
    if locations == [] then [] else [MappingRequest(locations[0], numRemappings)] + Requests(locations[1..], numRemappings)
  }

  /** One location of a source that is not remapping, with no cached mapping: it is asked for and nothing else changes. */
  lemma AddMappedLocationRequests(s: CacheState, location: Location)
    requires location.sourceId in s.mappedLocations && !s.mappedLocations[location.sourceId].remapping
    requires location !in s.locationMaps
    ensures var r := AddMappedLocationState(s, location);
      r.mappingRequests == s.mappingRequests + [MappingRequest(location, s.mappedLocations[location.sourceId].numRemappings)] &&
      r.mappedLocations == s.mappedLocations && r.locationMaps == s.locationMaps
  {
  }

  /** Adding locations of a source that is not remapping, none of them cached, asks for each of them in order. */
  lemma {:induction false} AddMappedLocationsRequestsAll(s: CacheState, sourceId: string, locations: seq<Location>)
    requires sourceId in s.mappedLocations && !s.mappedLocations[sourceId].remapping
    requires forall i :: 0 <= i < |locations| ==> locations[i].sourceId == sourceId && locations[i] !in s.locationMaps
    ensures var r := AddMappedLocationsState(s, locations);
      r.mappingRequests == s.mappingRequests + Requests(locations, s.mappedLocations[sourceId].numRemappings) &&
      r.mappedLocations == s.mappedLocations && r.locationMaps == s.locationMaps
    decreases |locations|
  {
    if locations != [] {
      var n := s.mappedLocations[sourceId].numRemappings;
      AddMappedLocationRequests(s, locations[0]);
      var s1 := AddMappedLocationState(s, locations[0]);
      var rest := locations[1..];
      AddMappedLocationsRequestsAll(s1, sourceId, rest);
      var first := [MappingRequest(locations[0], n)];
      calc {
        AddMappedLocationsState(s, locations).mappingRequests;
        AddMappedLocationsState(s1, rest).mappingRequests;
        s1.mappingRequests + Requests(rest, n);
        (s.mappingRequests + first) + Requests(rest, n);
        s.mappingRequests + (first + Requests(rest, n));
        s.mappingRequests + Requests(locations, n);
      }
    }
  }

  /**
   * A remap of a source that was not remapping ends with every location it
   * had mapped asked for again, under the new remap count, and with no stale
   * mapping of them left.
   */
  lemma RemapCycleRequestsEveryLocation(s: CacheState, sourceId: string)
    requires LocationsInOwnSource(s)
    requires !GetMapped(s.mappedLocations, sourceId).remapping
    ensures var info := GetMapped(s.mappedLocations, sourceId);
      var started := SourceRemapStartState(s, sourceId);
      started.Ok? &&
      var ended := SourceRemapEndState(started.value, sourceId);
      ended.1.None? &&
      ended.0.mappingRequests == s.mappingRequests + Requests(info.locations, info.numRemappings + 1) &&
      sourceId in ended.0.mappedLocations && ended.0.mappedLocations[sourceId] == MappedSourceLocations(false, info.numRemappings + 1, []) &&
      forall i :: 0 <= i < |info.locations| ==> info.locations[i] !in ended.0.locationMaps
  {
    var info := GetMapped(s.mappedLocations, sourceId);
    var started := SourceRemapStartState(s, sourceId).value;
    var cleared := started.(mappedLocations := started.mappedLocations[sourceId := MappedSourceLocations(false, info.numRemappings + 1, [])]);
    forall i | 0 <= i < |info.locations|
      ensures info.locations[i].sourceId == sourceId && info.locations[i] !in cleared.locationMaps
    {
      assert info.locations[i] in LocationSet(info.locations);
    }
    AddMappedLocationsRequestsAll(cleared, sourceId, info.locations);
  }

  // ---------------------------------------------------------------------
  // Scopes

  predicate SameLineAndColumn(a: Location, b: Location)
  {
    a.line == b.line && a.column == b.column
  }

  /** `existing.some(l => l.line == location.line && l.column == location.column)`. */
  predicate QueuedAt(queue: seq<Location>, location: Location)
  {
    exists i :: 0 <= i < |queue| && SameLineAndColumn(queue[i], location)
  }

  /**
   * The synchronous part of `addScopes`: a location of a source not yet loaded
   * is queued unless one on the same line and column is; otherwise its scopes
   * are asked for unless known.
   */
  function AddScopesState(s: CacheState, location: Location): (r: CacheState)
    ensures r.locationMaps == s.locationMaps && r.mappedLocations == s.mappedLocations
    ensures r.mappingRequests == s.mappingRequests && r.loadedSourceIds == s.loadedSourceIds
    ensures r.locationScopes == s.locationScopes
    ensures r.cachedForms == s.cachedForms && r.pendingForms == s.pendingForms
    ensures r.stepTargets == s.stepTargets && r.pausePackets == s.pausePackets
    ensures location.sourceId in s.loadedSourceIds ==>
      r.pendingLocationScopes == s.pendingLocationScopes &&
      r.scopeRequests == s.scopeRequests + (if location in s.locationScopes then [] else [location])
    ensures location.sourceId !in s.loadedSourceIds ==>
      r.scopeRequests == s.scopeRequests && location.sourceId in r.pendingLocationScopes
  {
    var sourceId := location.sourceId;
    if sourceId !in s.loadedSourceIds then
      if sourceId in s.pendingLocationScopes then
        var existing := s.pendingLocationScopes[sourceId];
        if QueuedAt(existing, location) then s
        else s.(pendingLocationScopes := s.pendingLocationScopes[sourceId := existing + [location]])
      else s.(pendingLocationScopes := s.pendingLocationScopes[sourceId := [location]])
    else if location in s.locationScopes then s
    else s.(scopeRequests := s.scopeRequests + [location])
  }

  /** The answer to a scopes request. */
  function ScopesArrivedState(s: CacheState, location: Location, scopes: Json): (r: CacheState)
    ensures r.locationScopes == s.locationScopes[location := scopes]
    ensures r.(locationScopes := s.locationScopes) == s
  {
    s.(locationScopes := s.locationScopes[location := scopes])
  }

  /** `pending.forEach(addScopes)`. */
  function AddScopesAllState(s: CacheState, locations: seq<Location>): CacheState
    decreases |locations|
  {
    if locations == [] then s else AddScopesAllState(AddScopesState(s, locations[0]), locations[1..])
  }

  /** `sourceLoaded`: marks the source loaded and handles the locations queued for it. */
  function SourceLoadedState(s: CacheState, sourceId: string): (r: CacheState)
  {
    var loaded := s.(loadedSourceIds := s.loadedSourceIds + {sourceId});
    if sourceId in s.pendingLocationScopes then
      AddScopesAllState(loaded.(pendingLocationScopes := s.pendingLocationScopes - {sourceId}), s.pendingLocationScopes[sourceId])
    else loaded
  }

  /** No source's queue holds two locations on the same line and column, and each queued location lies in that source. */
  predicate PendingScopesWellFormed(s: CacheState)
  {
    forall sourceId :: sourceId in s.pendingLocationScopes ==>
      var queue := s.pendingLocationScopes[sourceId];
      (forall i :: 0 <= i < |queue| ==> queue[i].sourceId == sourceId) &&
      (forall i, j :: 0 <= i < j < |queue| ==> !SameLineAndColumn(queue[i], queue[j]))
  }

  lemma AddScopesKeepsPendingWellFormed(s: CacheState, location: Location)
    requires PendingScopesWellFormed(s)
    ensures PendingScopesWellFormed(AddScopesState(s, location))
  {
    var sourceId := location.sourceId;
    if sourceId !in s.loadedSourceIds && sourceId in s.pendingLocationScopes {
      var existing := s.pendingLocationScopes[sourceId];
      if !QueuedAt(existing, location) {
        var queued := existing + [location];
        assert forall i, j :: 0 <= i < j < |queued| ==> !SameLineAndColumn(queued[i], queued[j]) by {
          forall i, j | 0 <= i < j < |queued|
            ensures !SameLineAndColumn(queued[i], queued[j])
          {
            if j == |existing| {
              assert queued[i] == existing[i];
            }
          }
        }
      }
    }
  }

  /** After `addScopes` on a source not loaded yet, a location on the same line and column is queued for it. */
  lemma AddScopesQueues(s: CacheState, location: Location)
    requires location.sourceId !in s.loadedSourceIds
    ensures var r := AddScopesState(s, location);
      location.sourceId in r.pendingLocationScopes && QueuedAt(r.pendingLocationScopes[location.sourceId], location)
  {
    var sourceId := location.sourceId;
    if sourceId in s.pendingLocationScopes {
      var existing := s.pendingLocationScopes[sourceId];
      if !QueuedAt(existing, location) {
        var queue := existing + [location];
        assert AddScopesState(s, location).pendingLocationScopes == s.pendingLocationScopes[sourceId := queue];
        assert SameLineAndColumn(queue[|existing|], location);
      }
    } else {
      assert AddScopesState(s, location).pendingLocationScopes == s.pendingLocationScopes[sourceId := [location]];
      assert SameLineAndColumn([location][0], location);
    }
  }

  /** Scopes of loaded sources: every location ends up known or asked for, and nothing else changes. */
  lemma {:induction false} AddScopesAllLoaded(s: CacheState, locations: seq<Location>)
    requires forall i :: 0 <= i < |locations| ==> locations[i].sourceId in s.loadedSourceIds
    ensures var r := AddScopesAllState(s, locations);
      r.pendingLocationScopes == s.pendingLocationScopes && r.loadedSourceIds == s.loadedSourceIds &&
      r.locationScopes == s.locationScopes &&
      (forall l :: l in s.scopeRequests ==> l in r.scopeRequests) &&
      forall i :: 0 <= i < |locations| ==> locations[i] in r.locationScopes || locations[i] in r.scopeRequests
    decreases |locations|
  {
    if locations != [] {
      var s1 := AddScopesState(s, locations[0]);
      AddScopesAllLoaded(s1, locations[1..]);
      forall i | 1 <= i < |locations|
        ensures locations[1..][i - 1] == locations[i]
      {
      }
    }
  }

  /**
   * Loading a source empties its queue: every location queued for it has its
   * scopes known or asked for, and the source counts as loaded.
   */
  lemma SourceLoadedHandlesQueue(s: CacheState, sourceId: string)
    requires PendingScopesWellFormed(s)
    requires sourceId in s.pendingLocationScopes
    ensures var r := SourceLoadedState(s, sourceId);
      sourceId in r.loadedSourceIds && sourceId !in r.pendingLocationScopes &&
      forall l :: l in s.pendingLocationScopes[sourceId] ==> l in r.locationScopes || l in r.scopeRequests
  {
    var loaded := s.(loadedSourceIds := s.loadedSourceIds + {sourceId}, pendingLocationScopes := s.pendingLocationScopes - {sourceId});
    AddScopesAllLoaded(loaded, s.pendingLocationScopes[sourceId]);
  }

  // ---------------------------------------------------------------------
  // Cached and pending forms

  /** `preloadFrameForm`: the form's location, once its source actor is known, is mapped and its scopes fetched. */
  function PreloadFrameFormState(s: CacheState, form: Json, sourceActors: map<string, string>): (r: Result<CacheState>)
    ensures r.Ok? <==> SourceForActorValue(sourceActors, Field(Field(form, "where"), "actor")).Ok?
    ensures r.Ok? ==> r.value.cachedForms == s.cachedForms && r.value.pendingForms == s.pendingForms
    ensures r.Ok? ==> r.value.stepTargets == s.stepTargets && r.value.pausePackets == s.pausePackets
  {
    var where := Field(form, "where");
    match SourceForActorValue(sourceActors, Field(where, "actor"))
    case Throws(e) => Throws(e)
    case Ok(sourceId) =>
      var location := Location(sourceId, IntValue(Field(where, "line")), IntValue(Field(where, "column")));
      Ok(AddScopesState(AddMappedLocationState(s, location), location))
  }

  /**
   * `addCachedForm`: the form must name its actor; its references are
   * resolved and it is stored under the actor.  A frame form whose source
   * actor is not registered yet waits in the pending list for that actor.
   */
  function AddCachedFormState(s: CacheState, form: Json, sourceActors: map<string, string>): (r: Result<CacheState>)
    ensures !Truthy(Field(form, "actor")) ==> r == Throws("Expected cached form actor")
    ensures r.Ok? <==> Truthy(Field(form, "actor")) && ReplaceRefs(s.cachedForms, form).Ok?
    ensures r.Ok? ==> r.value.cachedForms == s.cachedForms[Field(form, "actor") := ReplaceRefs(s.cachedForms, form).value]
    ensures r.Ok? ==> r.value.stepTargets == s.stepTargets && r.value.pausePackets == s.pausePackets
    ensures (r.Ok? ==>
      var resolved := ReplaceRefs(s.cachedForms, form).value;
      var where := Field(resolved, "where");
      var waiting := if Field(where, "actor") in s.pendingForms then s.pendingForms[Field(where, "actor")] else [];
      Truthy(where) && SourceForActorValue(sourceActors, Field(where, "actor")).Throws? ==>
        r.value.pendingForms == s.pendingForms[Field(where, "actor") := waiting + [resolved]])
  {
    var actor := Field(form, "actor");
    if !Truthy(actor) then Throws("Expected cached form actor")
    else
      match ReplaceRefs(s.cachedForms, form)
      case Throws(e) => Throws(e)
      case Ok(resolved) => Ok(PreloadOrDeferState(s.(cachedForms := s.cachedForms[actor := resolved]), resolved, sourceActors))
  }

  /**
   * The tail of `addCachedForm`: a form with a location is preloaded, and when
   * that throws (its source actor is not registered yet) the form waits in
   * `pendingForms` under that actor.
   */
  function PreloadOrDeferState(s: CacheState, resolved: Json, sourceActors: map<string, string>): (r: CacheState)
    ensures r.cachedForms == s.cachedForms
    ensures r.stepTargets == s.stepTargets && r.pausePackets == s.pausePackets
    ensures (var where := Field(resolved, "where");
      var waiting := if Field(where, "actor") in s.pendingForms then s.pendingForms[Field(where, "actor")] else [];
      Truthy(where) && SourceForActorValue(sourceActors, Field(where, "actor")).Throws? ==>
        r.pendingForms == s.pendingForms[Field(where, "actor") := waiting + [resolved]])
  {
    var where := Field(resolved, "where");
    if !Truthy(where) then s
    else
      match PreloadFrameFormState(s, resolved, sourceActors)
      case Ok(s') => s'
      case Throws(_) =>
        var whereActor := Field(where, "actor");
        var waiting := if whereActor in s.pendingForms then s.pendingForms[whereActor] else [];
        s.(pendingForms := s.pendingForms[whereActor := waiting + [resolved]])
  }

  /** `pending.forEach(preloadFrameForm)`: stops at the first form that throws. */
  function PreloadFormsState(s: CacheState, forms: seq<Json>, sourceActors: map<string, string>): (r: (CacheState, Option<string>))
    ensures r.0.cachedForms == s.cachedForms && r.0.pendingForms == s.pendingForms
    decreases |forms|
  {
    if forms == [] then (s, None)
    else
      match PreloadFrameFormState(s, forms[0], sourceActors)
      case Throws(e) => (s, Some(e))
      case Ok(s') => PreloadFormsState(s', forms[1..], sourceActors)
  }

  /**
   * `onSourceActorRegister`: the frame forms waiting for the actor are
   * preloaded, and the list is dropped once all of them were; a form that
   * throws leaves the list in place.
   */
  function OnSourceActorRegisterState(s: CacheState, actor: string, sourceActors: map<string, string>): (r: (CacheState, Option<string>))
    ensures JStr(actor) !in s.pendingForms ==> r == (s, None)
    ensures r.1.None? ==> JStr(actor) !in r.0.pendingForms
    ensures r.1.Some? ==> r.0.pendingForms == s.pendingForms
    ensures r.0.cachedForms == s.cachedForms
  {
    if JStr(actor) !in s.pendingForms then (s, None)
    else
      var (s', error) := PreloadFormsState(s, s.pendingForms[JStr(actor)], sourceActors);
      if error.Some? then (s', error)
      else (s'.(pendingForms := s'.pendingForms - {JStr(actor)}), None)
  }

  /** `cachedForms.forEach(addCachedForm)`: stops at the first form that throws. */
  function AddCachedFormsState(s: CacheState, forms: seq<Json>, sourceActors: map<string, string>): (r: (CacheState, Option<string>))
    ensures r.0.stepTargets == s.stepTargets && r.0.pausePackets == s.pausePackets
    decreases |forms|
  {
    if forms == [] then (s, None)
    else
      match AddCachedFormState(s, forms[0], sourceActors)
      case Throws(e) => (s, Some(e))
      case Ok(s') => AddCachedFormsState(s', forms[1..], sourceActors)
  }

  /** `frames.map(replaceCachedForm)`: every frame must be a reference to a stored form. */
  function ReplaceEach(forms: map<Json, Json>, frames: seq<Json>): (r: Result<seq<Json>>)
    ensures r.Ok? ==> |r.value| == |frames|
    decreases |frames|
  {
    if frames == [] then Ok([])
    else
      match ReplaceCachedForm(forms, frames[0])
      case Throws(e) => Throws(e)
      case Ok(first) =>
        match ReplaceEach(forms, frames[1..])
        case Throws(e) => Throws(e)
        case Ok(rest) => Ok([first] + rest)
  }

  /** The frames resolve exactly when each of them does, and each to its own stored form. */
  lemma {:induction false} ReplaceEachElementwise(forms: map<Json, Json>, frames: seq<Json>)
    ensures ReplaceEach(forms, frames).Ok? <==> forall i :: 0 <= i < |frames| ==> ReplaceCachedForm(forms, frames[i]).Ok?
    ensures ReplaceEach(forms, frames).Ok? ==>
      forall i :: 0 <= i < |frames| ==> ReplaceEach(forms, frames).value[i] == ReplaceCachedForm(forms, frames[i]).value
    decreases |frames|
  {
    if frames != [] {
      ReplaceEachElementwise(forms, frames[1..]);
      assert forall i :: 1 <= i < |frames| ==> frames[i] == frames[1..][i - 1];
    }
  }

  /** The `stepTargets` entry of preloaded data: the targets are stored under the point's key. */
  function RecordStepTargets(s: CacheState, point: Point, targets: StepTargetSet): CacheState
  {
    s.(stepTargets := s.stepTargets[PointToString(point) := targets])
  }

  /**
   * The `pauseData` entry: its forms are cached, then the frames and the
   * environment are resolved and the packet is stored under the point's key.
   */
  function PauseDataState(s: CacheState, point: Point, environment: Json, frames: seq<Json>, forms: seq<Json>,
                          sourceActors: map<string, string>): (r: (CacheState, Option<string>))
    ensures r.1.Some? ==> r.0.pausePackets == s.pausePackets
    ensures forall key :: key != PointToString(point) ==>
      (key in r.0.pausePackets <==> key in s.pausePackets) &&
      (key in s.pausePackets ==> r.0.pausePackets[key] == s.pausePackets[key])
    ensures r.0.stepTargets == s.stepTargets
  {
    var added := AddCachedFormsState(s, forms, sourceActors);
    var s' := added.0;
    if added.1.Some? then added
    else
      match ReplaceEach(s'.cachedForms, frames)
      case Throws(e) => (s', Some(e))
      case Ok(frames') =>
        match ReplaceCachedForm(s'.cachedForms, environment)
        case Throws(e) => (s', Some(e))
        case Ok(environment') =>
          (s'.(pausePackets := s'.pausePackets[PointToString(point) := PausePacket(frames', environment')]), None)
  }

  /**
   * The pause packet is stored exactly when the entry's forms were all added
   * and every frame and the environment are references to stored forms; it
   * then holds, frame by frame, the forms they refer to.
   */
  lemma PauseDataStored(s: CacheState, point: Point, environment: Json, frames: seq<Json>, forms: seq<Json>,
                        sourceActors: map<string, string>)
    ensures var added := AddCachedFormsState(s, forms, sourceActors);
      var r := PauseDataState(s, point, environment, frames, forms, sourceActors);
      (r.1.None? <==> (added.1.None? &&
        (forall i :: 0 <= i < |frames| ==> ReplaceCachedForm(added.0.cachedForms, frames[i]).Ok?) &&
        ReplaceCachedForm(added.0.cachedForms, environment).Ok?))
    ensures var stored := AddCachedFormsState(s, forms, sourceActors).0.cachedForms;
      var r := PauseDataState(s, point, environment, frames, forms, sourceActors);
      var packets := r.0.pausePackets;
      r.1.None? ==>
        PointToString(point) in packets &&
        |packets[PointToString(point)].frames| == |frames| &&
        (forall i :: 0 <= i < |frames| ==>
          packets[PointToString(point)].frames[i] == ReplaceCachedForm(stored, frames[i]).value) &&
        packets[PointToString(point)].environment == ReplaceCachedForm(stored, environment).value
  {
    ReplaceEachElementwise(AddCachedFormsState(s, forms, sourceActors).0.cachedForms, frames);
  }

  /**
   * `replayPreloadedData`: "InvalidateStepTargets" forgets every step target,
   * "StepTargets" records the targets of one point, "PauseData" stores the
   * entry's cached forms and then the pause packet built from them, and any
   * other kind throws.  What the forms stored before a throw did is kept.
   */
  function ReplayPreloadedDataState(s: CacheState, entry: PreloadedData, sourceActors: map<string, string>): (r: (CacheState, Option<string>))
    ensures entry.InvalidateStepTargets? ==> r == (s.(stepTargets := map[]), None)
    ensures entry.OtherKind? ==> r == (s, Some("Bad preloaded data kind"))
    ensures (entry.StepTargets? ==>
      r.1.None? && r.0.stepTargets == s.stepTargets[PointToString(entry.point) := entry.targets] &&
      r.0 == s.(stepTargets := r.0.stepTargets))
    ensures entry.PauseData? ==> r.0.stepTargets == s.stepTargets
  {
    match entry
    case InvalidateStepTargets => (s.(stepTargets := map[]), None)
    case StepTargets(point, targets) => (RecordStepTargets(s, point, targets), None)
    case PauseData(point, environment, frames, forms) => PauseDataState(s, point, environment, frames, forms, sourceActors)
    case OtherKind(_) => (s, Some("Bad preloaded data kind"))
  }

  /**
   * Recording step targets for a point makes them readable under the point's
   * key and keeps those of every other point (for position kinds without ":").
   */
  lemma StepTargetsKeepOtherPoints(s: CacheState, point: Point, targets: StepTargetSet, other: Point)
    requires point.position.Some? ==> ':' !in point.position.value.kind
    requires other.position.Some? ==> ':' !in other.position.value.kind
    requires other != point
    ensures var r := RecordStepTargets(s, point, targets).stepTargets;
      r[PointToString(point)] == targets &&
      (PointToString(other) in r <==> PointToString(other) in s.stepTargets) &&
      (PointToString(other) in s.stepTargets ==> r[PointToString(other)] == s.stepTargets[PointToString(other)])
  {
    if PointToString(other) == PointToString(point) {
      PointToStringInjective(other, point);
    }
  }

  /** A form stored by `addCachedForm` is what a reference to its actor resolves to. */
  lemma AddCachedFormThenResolve(s: CacheState, form: Json, sourceActors: map<string, string>)
    requires AddCachedFormState(s, form, sourceActors).Ok?
    ensures var r := AddCachedFormState(s, form, sourceActors).value;
      ReplaceCachedForm(r.cachedForms, JObj([Member("cached", Field(form, "actor"))])) ==
        Ok(ReplaceRefs(s.cachedForms, form).value)
  {
    var actor := Field(form, "actor");
    assert Field(JObj([Member("cached", actor)]), "cached") == actor;
  }

  /** The caches, as the client's module-level maps. */
  class PauseDataCache {
    var stepTargets: map<string, StepTargetSet>
    var pausePackets: map<string, PausePacket>
    var cachedForms: map<Json, Json>
    var pendingForms: map<Json, seq<Json>>
    var locationMaps: map<Location, Json>
    var mappedLocations: map<string, MappedSourceLocations>
    var mappingRequests: seq<MappingRequest>
    var locationScopes: map<Location, Json>
    var pendingLocationScopes: map<string, seq<Location>>
    var loadedSourceIds: set<string>
    var scopeRequests: seq<Location>

    function State(): CacheState
      reads this
    {
      CacheState(stepTargets, pausePackets, cachedForms, pendingForms, locationMaps, mappedLocations,
                 mappingRequests, locationScopes, pendingLocationScopes, loadedSourceIds, scopeRequests)
    }

    constructor()
      ensures State() == EmptyCache
    {
      stepTargets, pausePackets, cachedForms, pendingForms := map[], map[], map[], map[];
      locationMaps, mappedLocations, mappingRequests := map[], map[], [];
      locationScopes, pendingLocationScopes, loadedSourceIds, scopeRequests := map[], map[], {}, [];
    }

    method AddMappedLocation(location: Location)
      modifies this
      ensures State() == AddMappedLocationState(old(State()), location)
    {
      if location in locationMaps {
        return;
      }
      var info := GetMapped(mappedLocations, location.sourceId);
      if info.remapping {
        mappedLocations := mappedLocations[location.sourceId := info.(locations := info.locations + [location])];
      } else {
        mappedLocations := mappedLocations[location.sourceId := info];
        mappingRequests := mappingRequests + [MappingRequest(location, info.numRemappings)];
      }
    }

    method MappingArrived(request: MappingRequest, mapped: Json)
      modifies this
      ensures State() == MappingArrivedState(old(State()), request, mapped)
    {
      var location := request.location;
      var info := GetMapped(mappedLocations, location.sourceId);
      if request.numRemappings == info.numRemappings {
        locationMaps := locationMaps[location := mapped];
        mappedLocations := mappedLocations[location.sourceId := info.(locations := info.locations + [location])];
      } else if info.remapping {
        mappedLocations := mappedLocations[location.sourceId := info.(locations := info.locations + [location])];
      } else {
        mappingRequests := mappingRequests + [MappingRequest(location, info.numRemappings)];
      }
    }

    method SourceRemapStart(sourceId: string) returns (error: Option<string>)
      modifies this
      ensures error.None? ==> SourceRemapStartState(old(State()), sourceId) == Ok(State())
      ensures error.Some? ==> SourceRemapStartState(old(State()), sourceId) == Throws(error.value) && State() == old(State())
    {
      var info := GetMapped(mappedLocations, sourceId);
      if info.remapping {
        return Some("Remapping for source already in progress");
      }
      mappedLocations := mappedLocations[sourceId := info.(remapping := true, numRemappings := info.numRemappings + 1)];
      var maps := locationMaps;
      var i := 0;
      while i < |info.locations|
        invariant 0 <= i <= |info.locations|
        invariant maps == locationMaps - LocationSet(info.locations[..i])
      {
        assert LocationSet(info.locations[..i + 1]) == LocationSet(info.locations[..i]) + {info.locations[i]} by {
          assert forall j :: 0 <= j < i ==> info.locations[..i + 1][j] == info.locations[..i][j];
        }
        maps := maps - {info.locations[i]};
        i := i + 1;
      }
      assert info.locations[..i] == info.locations;
      locationMaps := maps;
      error := None;
    }

    method SourceRemapEnd(sourceId: string) returns (error: Option<string>)
      modifies this
      ensures (State(), error) == SourceRemapEndState(old(State()), sourceId)
    {
      var info := GetMapped(mappedLocations, sourceId);
      if !info.remapping {
        mappedLocations := mappedLocations[sourceId := info];
        return Some("Source is not being remapped");
      }
      mappedLocations := mappedLocations[sourceId := info.(remapping := false, locations := [])];
      var locations := info.locations;
      ghost var goal := AddMappedLocationsState(State(), locations);
      var i := 0;
      while i < |locations|
        invariant 0 <= i <= |locations|
        invariant AddMappedLocationsState(State(), locations[i..]) == goal
      {
        assert locations[i..][1..] == locations[i + 1..];
        AddMappedLocation(locations[i]);
        i := i + 1;
      }
      error := None;
    }

    method AddScopes(location: Location)
      modifies this
      ensures State() == AddScopesState(old(State()), location)
    {
      var sourceId := location.sourceId;
      if sourceId !in loadedSourceIds {
        if sourceId in pendingLocationScopes {
          var existing := pendingLocationScopes[sourceId];
          if !QueuedAt(existing, location) {
            pendingLocationScopes := pendingLocationScopes[sourceId := existing + [location]];
          }
        } else {
          pendingLocationScopes := pendingLocationScopes[sourceId := [location]];
        }
        return;
      }
      if location !in locationScopes {
        scopeRequests := scopeRequests + [location];
      }
    }

    method ScopesArrived(location: Location, scopes: Json)
      modifies this
      ensures State() == ScopesArrivedState(old(State()), location, scopes)
    {
      locationScopes := locationScopes[location := scopes];
    }

    method SourceLoaded(sourceId: string)
      modifies this
      ensures State() == SourceLoadedState(old(State()), sourceId)
    {
      loadedSourceIds := loadedSourceIds + {sourceId};
      if sourceId !in pendingLocationScopes {
        return;
      }
      var pending := pendingLocationScopes[sourceId];
      pendingLocationScopes := pendingLocationScopes - {sourceId};
      ghost var goal := AddScopesAllState(State(), pending);
      var i := 0;
      while i < |pending|
        invariant 0 <= i <= |pending|
        invariant AddScopesAllState(State(), pending[i..]) == goal
      {
        assert pending[i..][1..] == pending[i + 1..];
        AddScopes(pending[i]);
        i := i + 1;
      }
    }

    method PreloadFrameForm(form: Json, sourceActors: map<string, string>) returns (error: Option<string>)
      modifies this
      ensures error.None? ==> PreloadFrameFormState(old(State()), form, sourceActors) == Ok(State())
      ensures error.Some? ==> PreloadFrameFormState(old(State()), form, sourceActors) == Throws(error.value) && State() == old(State())
    {
      var where := Field(form, "where");
      var sourceId := SourceForActorValue(sourceActors, Field(where, "actor"));
      if sourceId.Throws? {
        return Some(sourceId.error);
      }
      var location := Location(sourceId.value, IntValue(Field(where, "line")), IntValue(Field(where, "column")));
      AddMappedLocation(location);
      AddScopes(location);
      error := None;
    }

    method AddCachedForm(form: Json, sourceActors: map<string, string>) returns (error: Option<string>)
      modifies this
      ensures error.None? ==> AddCachedFormState(old(State()), form, sourceActors) == Ok(State())
      ensures error.Some? ==> AddCachedFormState(old(State()), form, sourceActors) == Throws(error.value) && State() == old(State())
    {
      var actor := Field(form, "actor");
      if !Truthy(actor) {
        return Some("Expected cached form actor");
      }
      var resolved := ReplaceRefs(cachedForms, form);
      if resolved.Throws? {
        return Some(resolved.error);
      }
      cachedForms := cachedForms[actor := resolved.value];
      PreloadOrDefer(resolved.value, sourceActors);
      error := None;
    }

    method PreloadOrDefer(resolved: Json, sourceActors: map<string, string>)
      modifies this
      ensures State() == PreloadOrDeferState(old(State()), resolved, sourceActors)
    {
      var where := Field(resolved, "where");
      if Truthy(where) {
        var preloadError := PreloadFrameForm(resolved, sourceActors);
        if preloadError.Some? {
          var whereActor := Field(where, "actor");
          var waiting := if whereActor in pendingForms then pendingForms[whereActor] else [];
          pendingForms := pendingForms[whereActor := waiting + [resolved]];
        }
      }
    }

    /** `pending.forEach(preloadFrameForm)`. */
    method PreloadForms(forms: seq<Json>, sourceActors: map<string, string>) returns (error: Option<string>)
      modifies this
      ensures (State(), error) == PreloadFormsState(old(State()), forms, sourceActors)
    {
      ghost var goal := PreloadFormsState(State(), forms, sourceActors);
      var i := 0;
      while i < |forms|
        invariant 0 <= i <= |forms|
        invariant PreloadFormsState(State(), forms[i..], sourceActors) == goal
      {
        assert forms[i..][1..] == forms[i + 1..];
        var preloadError := PreloadFrameForm(forms[i], sourceActors);
        if preloadError.Some? {
          return preloadError;
        }
        i := i + 1;
      }
      error := None;
    }

    method OnSourceActorRegister(actor: string, sourceActors: map<string, string>) returns (error: Option<string>)
      modifies this
      ensures (State(), error) == OnSourceActorRegisterState(old(State()), actor, sourceActors)
    {
      if JStr(actor) !in pendingForms {
        return None;
      }
      error := PreloadForms(pendingForms[JStr(actor)], sourceActors);
      if error.Some? {
        return;
      }
      pendingForms := pendingForms - {JStr(actor)};
      error := None;
    }

    /** `cachedForms.forEach(addCachedForm)`. */
    method AddCachedForms(forms: seq<Json>, sourceActors: map<string, string>) returns (error: Option<string>)
      modifies this
      ensures (State(), error) == AddCachedFormsState(old(State()), forms, sourceActors)
    {
      ghost var goal := AddCachedFormsState(State(), forms, sourceActors);
      var i := 0;
      while i < |forms|
        invariant 0 <= i <= |forms|
        invariant AddCachedFormsState(State(), forms[i..], sourceActors) == goal
      {
        assert forms[i..][1..] == forms[i + 1..];
        var formError := AddCachedForm(forms[i], sourceActors);
        if formError.Some? {
          return formError;
        }
        i := i + 1;
      }
      error := None;
    }

    method ReplayPauseData(point: Point, environment: Json, frames: seq<Json>, forms: seq<Json>,
                           sourceActors: map<string, string>) returns (error: Option<string>)
      modifies this
      ensures (State(), error) == PauseDataState(old(State()), point, environment, frames, forms, sourceActors)
    {
      var formError := AddCachedForms(forms, sourceActors);
      if formError.Some? {
        return formError;
      }
      var frames' := ReplaceEach(cachedForms, frames);
      if frames'.Throws? {
        return Some(frames'.error);
      }
      var environment' := ReplaceCachedForm(cachedForms, environment);
      if environment'.Throws? {
        return Some(environment'.error);
      }
      pausePackets := pausePackets[PointToString(point) := PausePacket(frames'.value, environment'.value)];
      error := None;
    }

    method ReplayPreloadedData(entry: PreloadedData, sourceActors: map<string, string>) returns (error: Option<string>)
      modifies this
      ensures (State(), error) == ReplayPreloadedDataState(old(State()), entry, sourceActors)
    {
      match entry {
        case InvalidateStepTargets =>
          stepTargets := map[];
          error := None;
        case StepTargets(point, targets) =>
          stepTargets := stepTargets[PointToString(point) := targets];
          error := None;
        case PauseData(point, environment, frames, forms) =>
          error := ReplayPauseData(point, environment, frames, forms, sourceActors);
        case OtherKind(_) =>
          error := Some("Bad preloaded data kind");
      }
    }
  }
}
