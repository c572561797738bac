// Execution points of a recording: a checkpoint, a progress counter within
// it, and optionally a position in the script at that moment.  The front-end
// compares them only through `pointPrecedes` and `pointEquals`, whose module
// is not part of this model; here the order is a lexicographic comparison of
// the fields, and the rest of the model relies only on the three lemmas at the
// end of this module (it is a strict total order, and `PointEquals` is
// equality).

module ExecutionPoints {
  import opened Basics

  datatype Position = Position(kind: string, script: nat, offset: nat, frameIndex: nat)

  datatype Point = Point(checkpoint: nat, progress: nat, position: Option<Position>)

  /** Lexicographic order on strings (a proper prefix comes first). */
  predicate StringLess(a: string, b: string)
    decreases |a|
  {
    |b| > 0 && (|a| == 0 || a[0] < b[0] || (a[0] == b[0] && StringLess(a[1..], b[1..])))
  }

  predicate PositionPrecedes(a: Position, b: Position)
  {
    StringLess(a.kind, b.kind)
    || (a.kind == b.kind && a.script < b.script)
    || (a.kind == b.kind && a.script == b.script && a.offset < b.offset)
    || (a.kind == b.kind && a.script == b.script && a.offset == b.offset && a.frameIndex < b.frameIndex)
  }

  /** A point without a position comes before every position in the same step. */
  predicate OptPositionPrecedes(a: Option<Position>, b: Option<Position>)
  {
    match (a, b)
    case (None, Some(_)) => true
    case (Some(p), Some(q)) => PositionPrecedes(p, q)
    case _ => false
  }

  /** `pointPrecedes(a, b)`: `a` happens strictly before `b`. */
  predicate Precedes(a: Point, b: Point)
  {
    a.checkpoint < b.checkpoint
    || (a.checkpoint == b.checkpoint && a.progress < b.progress)
    || (a.checkpoint == b.checkpoint && a.progress == b.progress && OptPositionPrecedes(a.position, b.position))
  }

  /** `pointEquals(a, b)`. */
  predicate PointEquals(a: Point, b: Point) { a == b }

  lemma {:induction false} StringLessIrreflexive(a: string)
    ensures !StringLess(a, a)
    decreases |a|
  {
    if |a| > 0 {
      StringLessIrreflexive(a[1..]);
    }
  }

  lemma {:induction false} StringLessTransitive(a: string, b: string, c: string)
    requires StringLess(a, b) && StringLess(b, c)
    ensures StringLess(a, c)
    decreases |a|
  {
    if |a| > 0 && a[0] == b[0] && b[0] == c[0] {
      StringLessTransitive(a[1..], b[1..], c[1..]);
    }
  }

  lemma {:induction false} StringLessTotal(a: string, b: string)
    ensures a == b || StringLess(a, b) || StringLess(b, a)
    decreases |a|
  {
    if |a| > 0 && |b| > 0 && a[0] == b[0] {
      StringLessTotal(a[1..], b[1..]);
      if a[1..] == b[1..] {
        assert a == [a[0]] + a[1..] && b == [b[0]] + b[1..];
      }
    }
  }

  lemma PositionOrder(p: Position, q: Position, r: Position)
    ensures !PositionPrecedes(p, p)
    ensures PositionPrecedes(p, q) && PositionPrecedes(q, r) ==> PositionPrecedes(p, r)
    ensures p == q || PositionPrecedes(p, q) || PositionPrecedes(q, p)
  {
    StringLessIrreflexive(p.kind);
    StringLessTotal(p.kind, q.kind);
    if StringLess(p.kind, q.kind) && StringLess(q.kind, p.kind) {
      StringLessTransitive(p.kind, q.kind, p.kind);
    }
    if PositionPrecedes(p, q) && PositionPrecedes(q, r) {
      if StringLess(p.kind, q.kind) && StringLess(q.kind, r.kind) {
        StringLessTransitive(p.kind, q.kind, r.kind);
      }
    }
  }

  /** No point precedes itself. */
  lemma PrecedesIrreflexive(a: Point)
    ensures !Precedes(a, a)
  {
    if a.position.Some? {
      PositionOrder(a.position.value, a.position.value, a.position.value);
    }
  }

  /** `pointPrecedes` is transitive. */
  lemma PrecedesTransitive(a: Point, b: Point, c: Point)
    requires Precedes(a, b) && Precedes(b, c)
    ensures Precedes(a, c)
  {
    if a.position.Some? && b.position.Some? && c.position.Some? {
      PositionOrder(a.position.value, b.position.value, c.position.value);
    }
  }

  /** Any two distinct points are ordered one way or the other, never both. */
  lemma PrecedesTotal(a: Point, b: Point)
    ensures PointEquals(a, b) || Precedes(a, b) || Precedes(b, a)
    ensures !(Precedes(a, b) && Precedes(b, a))
  {
    if a.position.Some? && b.position.Some? {
      PositionOrder(a.position.value, b.position.value, a.position.value);
    }
    if Precedes(a, b) && Precedes(b, a) {
      PrecedesTransitive(a, b, a);
      PrecedesIrreflexive(a);
    }
  }
}
