// Conversions between the debugger's 1-based source lines and the editor's
// 0-based lines, and the part of a source the editor treats as visible.

module EditorLines {
  import opened Basics

  /** A line or column is truthy when it is present and not 0. */
  predicate Truthy(n: Option<int>)
  {
    n.Some? && n.value != 0
  }

  /** `fromEditorLine` (and `toSourceLine`, which is the same conversion). */
  function FromEditorLine(line: int): int
  {
    line + 1
  }

  /**
   * `toEditorLine`: one less than the source line; a missing line (or line
   * 0) maps to editor line 1.
   */
  function ToEditorLine(line: Option<int>): (r: int)
    ensures Truthy(line) ==> FromEditorLine(r) == line.value
    ensures !Truthy(line) ==> r == 1
  {
    if Truthy(line) then line.value - 1 else 1
  }

  /** Every editor line other than -1 comes back from its source line. */
  lemma EditorLineRoundTrip(line: int)
    requires line != -1
    ensures ToEditorLine(Some(FromEditorLine(line))) == line
  {
  }

  datatype SourcePosition = SourcePosition(line: Option<int>, column: Option<int>)

  datatype EditorPosition = EditorPosition(line: int, column: int)

  /** `toEditorPosition`: the line converted, and column 0 for a missing column. */
  function ToEditorPosition(location: SourcePosition): (r: EditorPosition)
    ensures r.line == ToEditorLine(location.line)
    ensures r.column == if Truthy(location.column) then location.column.value else 0
  {
    EditorPosition(ToEditorLine(location.line), if Truthy(location.column) then location.column.value else 0)
  }

  datatype SourceRange = SourceRange(start: SourcePosition, end: SourcePosition)

  datatype EditorRange = EditorRange(start: EditorPosition, end: EditorPosition)

  /** `toEditorRange`: both ends converted on their own. */
  function ToEditorRange(range: SourceRange): (r: EditorRange)
    ensures r.start == ToEditorPosition(range.start) && r.end == ToEditorPosition(range.end)
  {
    EditorRange(ToEditorPosition(range.start), ToEditorPosition(range.end))
  }

  /** A viewport line: a number or `Number.POSITIVE_INFINITY`. */
  datatype ViewportLine = Line(n: int) | Infinity

  datatype ViewportPosition = ViewportPosition(line: ViewportLine, column: int)

  datatype Viewport = Viewport(start: ViewportPosition, end: ViewportPosition)

  /** What `getLocationsInViewport` reads from the editor. */
  datatype ScrollInfo = ScrollInfo(scrollLeft: real, clientWidth: real, charWidth: real)

  /**
   * `getLocationsInViewport`: everything is 0 without an editor; with one,
   * every line counts as visible and the columns are those scrolled into view
   * widened by `offset` characters on each side.
   */
  function LocationsInViewport(editor: Option<ScrollInfo>, offset: int): (r: Viewport)
    requires editor.Some? ==> editor.value.charWidth > 0.0
    ensures editor.None? ==> r == Viewport(ViewportPosition(Line(0), 0), ViewportPosition(Line(0), 0))
    ensures editor.Some? ==> r.start.line == Line(0) && r.end.line == Infinity
    ensures editor.Some? && offset >= 0 && editor.value.scrollLeft >= 0.0 && editor.value.clientWidth >= 30.0 ==>
      r.start.column <= r.end.column
  {
    match editor
    case None => Viewport(ViewportPosition(Line(0), 0), ViewportPosition(Line(0), 0))
    case Some(info) =>
      var leftColumn := (if info.scrollLeft > 0.0 then info.scrollLeft / info.charWidth - offset as real else 0.0).Floor;
      var rightPosition := info.scrollLeft + (info.clientWidth - 30.0);
      var rightCharacter := (rightPosition / info.charWidth).Floor + offset;
      assert offset >= 0 && info.scrollLeft >= 0.0 && info.clientWidth >= 30.0 ==> leftColumn <= rightCharacter by {
        if offset >= 0 && info.scrollLeft >= 0.0 && info.clientWidth >= 30.0 {
          ViewportColumnsOrdered(info.scrollLeft, info.clientWidth, info.charWidth, offset);
        }
      }
      Viewport(ViewportPosition(Line(0), leftColumn), ViewportPosition(Infinity, rightCharacter))
  }

  lemma ViewportColumnsOrdered(scrollLeft: real, clientWidth: real, charWidth: real, offset: int)
    requires charWidth > 0.0 && offset >= 0 && scrollLeft >= 0.0 && clientWidth >= 30.0
    ensures (if scrollLeft > 0.0 then scrollLeft / charWidth - offset as real else 0.0).Floor <=
      ((scrollLeft + (clientWidth - 30.0)) / charWidth).Floor + offset
  {
    var right := (scrollLeft + (clientWidth - 30.0)) / charWidth;
    assert scrollLeft / charWidth <= right by {
      assert scrollLeft <= scrollLeft + (clientWidth - 30.0);
      DivideMonotone(scrollLeft, scrollLeft + (clientWidth - 30.0), charWidth);
    }
    assert right >= 0.0 by {
      DivideMonotone(0.0, scrollLeft + (clientWidth - 30.0), charWidth);
    }
  }

  lemma DivideMonotone(a: real, b: real, c: real)
    requires c > 0.0 && a <= b
    ensures a / c <= b / c
  {
    assert b / c - a / c == (b - a) / c;
  }
}
