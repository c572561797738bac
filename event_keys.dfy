// String keys of the debugger's pause-data caches: execution points are
// rendered as "checkpoint:progress[:kind:script:offset:frameIndex]" and source
// locations as "sourceId:line:column".

module EventKeys {
  import opened Basics
  import opened ExecutionPoints

  /** `positionToString`. */
  function PositionToString(pos: Position): string
  {
    pos.kind + ":" + NatToString(pos.script) + ":" + NatToString(pos.offset) + ":" + NatToString(pos.frameIndex)
  }

  /** `pointToString`: the position's fields are appended only when the point has one. */
  function PointToString(point: Point): string
  {
    var prefix := NatToString(point.checkpoint) + ":" + NatToString(point.progress);
    if point.position.Some? then prefix + ":" + PositionToString(point.position.value) else prefix
  }

  function PositionFields(pos: Position): seq<string>
  {
    [pos.kind, NatToString(pos.script), NatToString(pos.offset), NatToString(pos.frameIndex)]
  }

  /** A position's key is its fields joined by ":". */
  lemma PositionJoin(pos: Position)
    ensures Join(PositionFields(pos), ':') == PositionToString(pos)
  {
    var f := PositionFields(pos);
    assert Join(f[3..], ':') == f[3];
    assert Join(f[2..], ':') == f[2] + ":" + f[3];
    assert Join(f[1..], ':') == f[1] + ":" + f[2] + ":" + f[3];
  }

  /** The ":"-separated fields of a point's key. */
  function PointFields(point: Point): (fields: seq<string>)
    ensures |fields| == if point.position.Some? then 6 else 2
  {
    [NatToString(point.checkpoint), NatToString(point.progress)] +
      (if point.position.Some? then PositionFields(point.position.value) else [])
  }

  /** A point's key splits back into its fields, when the position kind has no ":". */
  lemma PointToStringFields(point: Point)
    requires point.position.Some? ==> ':' !in point.position.value.kind
    ensures Split(PointToString(point), ':') == PointFields(point)
  {
    var f := PointFields(point);
    forall i | 0 <= i < |f|
      ensures ':' !in f[i]
    {
      if !(point.position.Some? && i == 2) {
        DigitsExclude(f[i], ':');
      }
    }
    if point.position.Some? {
      PositionJoin(point.position.value);
      assert f[2..] == PositionFields(point.position.value);
      assert Join(f[1..], ':') == f[1] + ":" + PositionToString(point.position.value);
      assert Join(f, ':') == PointToString(point);
    } else {
      assert Join(f[1..], ':') == f[1];
      assert Join(f, ':') == PointToString(point);
    }
    JoinSplit(f, ':');
  }

  /** Distinct points never share a key (for position kinds without ":"), so the caches keyed by point never collide. */
  lemma PointToStringInjective(a: Point, b: Point)
    requires a.position.Some? ==> ':' !in a.position.value.kind
    requires b.position.Some? ==> ':' !in b.position.value.kind
    requires PointToString(a) == PointToString(b)
    ensures a == b
  {
    PointToStringFields(a);
    PointToStringFields(b);
    var fa, fb := PointFields(a), PointFields(b);
    assert fa == fb;
    assert ParseDigits(fa[0]) == a.checkpoint && ParseDigits(fb[0]) == b.checkpoint;
    assert ParseDigits(fa[1]) == a.progress && ParseDigits(fb[1]) == b.progress;
    assert a.position.Some? <==> b.position.Some?;
    if a.position.Some? {
      var p, q := a.position.value, b.position.value;
      assert p.kind == fa[2] == fb[2] == q.kind;
      assert ParseDigits(fa[3]) == p.script && ParseDigits(fb[3]) == q.script;
      assert ParseDigits(fa[4]) == p.offset && ParseDigits(fb[4]) == q.offset;
      assert ParseDigits(fa[5]) == p.frameIndex && ParseDigits(fb[5]) == q.frameIndex;
    }
  }

  /** A source location as the pause-data caches see it. */
  datatype Location = Location(sourceId: string, line: int, column: int)

  /** `locationKey` of the pause-data caches. */
  function LocationKey(location: Location): string
  {
    location.sourceId + ":" + IntToString(location.line) + ":" + IntToString(location.column)
  }

  lemma IntTextHasNoColon(i: int)
    ensures ':' !in IntToString(i)
  {
    if i < 0 {
      DigitsExclude(NatToString(-i), ':');
      assert IntToString(i) == "-" + NatToString(-i);
    } else {
      DigitsExclude(NatToString(i), ':');
    }
  }

  /** The rendering of an integer determines it. */
  lemma IntToStringInjective(i: int, j: int)
    requires IntToString(i) == IntToString(j)
    ensures i == j
  {
    var si, sj := IntToString(i), IntToString(j);
    if i < 0 && j < 0 {
      assert NatToString(-i) == si[1..] == sj[1..] == NatToString(-j);
    }
  }

  /**
   * Distinct locations have distinct keys: the last two fields are the line
   * and the column, and what precedes them is the source id (which may itself
   * contain ":").
   */
  lemma LocationKeyInjective(a: Location, b: Location)
    requires LocationKey(a) == LocationKey(b)
    ensures a == b
  {
    LocationKeySplit(a);
    LocationKeySplit(b);
    var pa, pb := Split(a.sourceId, ':'), Split(b.sourceId, ':');
    var ka := pa + [IntToString(a.line)] + [IntToString(a.column)];
    var kb := pb + [IntToString(b.line)] + [IntToString(b.column)];
    assert ka == kb;
    assert IntToString(a.line) == ka[|ka| - 2] == kb[|kb| - 2] == IntToString(b.line);
    assert IntToString(a.column) == ka[|ka| - 1] == kb[|kb| - 1] == IntToString(b.column);
    assert pa == ka[..|ka| - 2] == kb[..|kb| - 2] == pb;
    SplitJoin(a.sourceId, ':');
    SplitJoin(b.sourceId, ':');
    IntToStringInjective(a.line, b.line);
    IntToStringInjective(a.column, b.column);
  }

  /** A location key splits into the source id's fields, the line and the column. */
  lemma LocationKeySplit(location: Location)
    ensures Split(LocationKey(location), ':') ==
      Split(location.sourceId, ':') + [IntToString(location.line)] + [IntToString(location.column)]
  {
    var line, column := IntToString(location.line), IntToString(location.column);
    IntTextHasNoColon(location.line);
    IntTextHasNoColon(location.column);
    SplitAppend(location.sourceId + ":" + line, column, ':');
    SplitAppend(location.sourceId, line, ':');
  }
}
