// The thread's front for a CSS rule: a view over the rule's preview data.
// DOM fronts for the rule's style and parent style sheet come from the pause,
// given here as a map from object id to front.

module RuleFronts {
  import opened Basics
  import opened JsValues

  /** A style sheet front, as far as the rule reads it. */
  datatype StyleSheetFront = StyleSheetFront(href: Json, isSystem: Json)

  /** What the pause's `getDOMFront` returns for an object id; an unknown id gives null. */
  function GetDOMFront(fronts: map<Json, StyleSheetFront>, id: Json): Option<StyleSheetFront>
  {
    if id in fronts then Some(fronts[id]) else None
  }

  datatype RuleFront = RuleFront(data: Json, rule: Json)

  /**
   * The constructor: it asserts that the data has a preview with a rule, and
   * keeps the data and the rule.
   */
  function MakeRuleFront(data: Json): (r: Result<RuleFront>)
    ensures r.Ok? <==> Truthy(data) && Truthy(Field(data, "preview")) && Truthy(Field(Field(data, "preview"), "rule"))
    ensures r.Ok? ==> r.value.data == data && r.value.rule == Field(Field(data, "preview"), "rule")
    ensures r.Ok? ==> Truthy(r.value.rule)
  {
    if Truthy(data) && Truthy(Field(data, "preview")) && Truthy(Field(Field(data, "preview"), "rule")) then
      Ok(RuleFront(data, Field(Field(data, "preview"), "rule")))
    else Throws("Assertion failure")
  }

  function ObjectId(front: RuleFront): Json { Field(front.data, "objectId") }

  predicate IsRule(front: RuleFront) { true }

  /**
   * The white space `String.prototype.trim` removes: the WhiteSpace and
   * LineTerminator code points of ECMAScript (section 12.2 and 12.3 of
   * ECMA-262).
   */
  const JsWhitespace: set<char> := {
    ' ', '\t', '\n', '\r', '\U{000B}', '\U{000C}', '\U{00A0}', '\U{1680}',
    '\U{2000}', '\U{2001}', '\U{2002}', '\U{2003}', '\U{2004}', '\U{2005}', '\U{2006}', '\U{2007}',
    '\U{2008}', '\U{2009}', '\U{200A}', '\U{2028}', '\U{2029}', '\U{202F}', '\U{205F}', '\U{3000}',
    '\U{FEFF}'}

  predicate IsJsWhitespace(c: char)
  {
    c in JsWhitespace
  }

  predicate AllWhitespace(s: string)
  {
    forall i :: 0 <= i < |s| ==> IsJsWhitespace(s[i])
  }

  /** `s` has no white space at either end. */
  predicate Trimmed(s: string)
  {
    |s| == 0 || (!IsJsWhitespace(s[0]) && !IsJsWhitespace(s[|s| - 1]))
  }

  /** Where the white space at the start of `s[i..]` ends. */
  function TrimStartIndex(s: string, i: nat): (r: nat)
    requires i <= |s|
    ensures i <= r <= |s|
    ensures forall k :: i <= k < r ==> IsJsWhitespace(s[k])
    ensures r == |s| || !IsJsWhitespace(s[r])
    decreases |s| - i
  {
    if i < |s| && IsJsWhitespace(s[i]) then TrimStartIndex(s, i + 1) else i
  }

  /** Where the white space at the end of `s[lo..j]` starts. */
  function TrimEndIndex(s: string, lo: nat, j: nat): (r: nat)
    requires lo <= j <= |s|
    ensures lo <= r <= j
    ensures forall k :: r <= k < j ==> IsJsWhitespace(s[k])
    ensures r == lo || !IsJsWhitespace(s[r - 1])
    decreases j
  {
    if lo < j && IsJsWhitespace(s[j - 1]) then TrimEndIndex(s, lo, j - 1) else j
  }

  /** `s.trim()`: the middle of `s` between white space at its ends. */
  function Trim(s: string): (r: string)
    ensures Trimmed(r)
    ensures exists i :: 0 <= i <= |s| - |r| && r == s[i..i + |r|] && AllWhitespace(s[..i]) && AllWhitespace(s[i + |r|..])
  {
    var a := TrimStartIndex(s, 0);
    var b := TrimEndIndex(s, a, |s|);
    assert AllWhitespace(s[..a]) && AllWhitespace(s[b..]);
    assert a < b ==> !IsJsWhitespace(s[a]);
    s[a..b]
  }

  /** Trimming removes nothing from a string with no white space at its ends. */
  lemma TrimTrimmed(s: string)
    requires Trimmed(s)
    ensures Trim(s) == s
  {
  }

  /** Trimming twice is trimming once. */
  lemma TrimIdempotent(s: string)
    ensures Trim(Trim(s)) == Trim(s)
  {
    TrimTrimmed(Trim(s));
  }

  function TrimAll(parts: seq<string>): (r: seq<string>)
    ensures |r| == |parts|
    ensures forall i :: 0 <= i < |parts| ==> r[i] == Trim(parts[i])
  {
    if parts == [] then [] else [Trim(parts[0])] + TrimAll(parts[1..])
  }

  /**
   * `selectors`: the selector text split at every "," with each piece
   * trimmed; a rule whose selector text is not a string throws.
   */
  function Selectors(front: RuleFront): (r: Result<seq<string>>)
    ensures r.Ok? <==> Field(front.rule, "selectorText").JStr?
    ensures r.Ok? ==> |r.value| == Count(Field(front.rule, "selectorText").s, ',') + 1
    ensures r.Ok? ==> forall i :: 0 <= i < |r.value| ==> Trimmed(r.value[i]) && ',' !in r.value[i]
    ensures (r.Ok? ==> var pieces := Split(Field(front.rule, "selectorText").s, ',');
      |pieces| == |r.value| && forall i :: 0 <= i < |r.value| ==> r.value[i] == Trim(pieces[i]))
  {
    match Field(front.rule, "selectorText")
    case JStr(text) =>
      var parts := Split(text, ',');
      Ok(TrimAll(parts))
    case _ => Throws("TypeError")
  }

  /**
   * A selector list written as trimmed, comma-free selectors joined by ","
   * gives those selectors back.
   */
  lemma SelectorsRoundTrip(front: RuleFront, selectors: seq<string>)
    requires |selectors| > 0
    requires forall i :: 0 <= i < |selectors| ==> Trimmed(selectors[i]) && ',' !in selectors[i]
    requires Field(front.rule, "selectorText") == JStr(Join(selectors, ','))
    ensures Selectors(front) == Ok(selectors)
  {
    JoinSplit(selectors, ',');
    TrimAllTrimmed(selectors);
  }

  lemma TrimAllTrimmed(parts: seq<string>)
    requires forall i :: 0 <= i < |parts| ==> Trimmed(parts[i])
    ensures TrimAll(parts) == parts
  {
    forall i | 0 <= i < |parts|
      ensures Trim(parts[i]) == parts[i]
    {
      TrimTrimmed(parts[i]);
    }
  }

  /** `style`: the DOM front of the rule's style, or null when it has none. */
  function Style(front: RuleFront, fronts: map<Json, StyleSheetFront>): (r: Option<StyleSheetFront>)
    ensures !Truthy(Field(front.rule, "style")) ==> r.None?
    ensures Truthy(Field(front.rule, "style")) ==> r == GetDOMFront(fronts, Field(front.rule, "style"))
  {
    var style := Field(front.rule, "style");
    if Truthy(style) then GetDOMFront(fronts, style) else None
  }

  /** `parentStyleSheet`: the DOM front of the rule's sheet, or null when it has none. */
  function ParentStyleSheet(front: RuleFront, fronts: map<Json, StyleSheetFront>): (r: Option<StyleSheetFront>)
    ensures !Truthy(Field(front.rule, "parentStyleSheet")) ==> r.None?
    ensures Truthy(Field(front.rule, "parentStyleSheet")) ==> r == GetDOMFront(fronts, Field(front.rule, "parentStyleSheet"))
  {
    var sheet := Field(front.rule, "parentStyleSheet");
    if Truthy(sheet) then GetDOMFront(fronts, sheet) else None
  }

  function OriginalLocation(front: RuleFront): Json { Field(front.rule, "originalLocation") }

  /**
   * `href`: the original location's href when the rule has an original
   * location, otherwise the parent sheet's href, otherwise null.
   */
  function Href(front: RuleFront, fronts: map<Json, StyleSheetFront>): (r: Json)
    ensures Truthy(OriginalLocation(front)) ==> r == Field(OriginalLocation(front), "href")
    ensures !Truthy(OriginalLocation(front)) && ParentStyleSheet(front, fronts).Some? ==>
      r == ParentStyleSheet(front, fronts).value.href
    ensures !Truthy(OriginalLocation(front)) && ParentStyleSheet(front, fronts).None? ==> r == JNull
  {
    if Truthy(OriginalLocation(front)) then Field(OriginalLocation(front), "href")
    else
      match ParentStyleSheet(front, fronts)
      case Some(sheet) => sheet.href
      case None => JNull
  }

  /** `isSystem`: the parent sheet's flag, or null without a sheet. */
  function IsSystem(front: RuleFront, fronts: map<Json, StyleSheetFront>): (r: Json)
    ensures ParentStyleSheet(front, fronts).Some? ==> r == ParentStyleSheet(front, fronts).value.isSystem
    ensures ParentStyleSheet(front, fronts).None? ==> r == JNull
  {
    match ParentStyleSheet(front, fronts)
    case Some(sheet) => sheet.isSystem
    case None => JNull
  }

  /** A position field, read from the original location when there is one and from the rule itself otherwise. */
  function Position(front: RuleFront, key: string): (r: Json)
    ensures Truthy(OriginalLocation(front)) ==> r == Field(OriginalLocation(front), key)
    ensures !Truthy(OriginalLocation(front)) ==> r == Field(front.rule, key)
  {
    if Truthy(OriginalLocation(front)) then Field(OriginalLocation(front), key) else Field(front.rule, key)
  }

  /** `line`. */
  function Line(front: RuleFront): (r: Json)
    ensures Truthy(OriginalLocation(front)) ==> r == Field(OriginalLocation(front), "startLine")
    ensures !Truthy(OriginalLocation(front)) ==> r == Field(front.rule, "startLine")
  {
    Position(front, "startLine")
  }

  /** `column`. */
  function Column(front: RuleFront): (r: Json)
    ensures Truthy(OriginalLocation(front)) ==> r == Field(OriginalLocation(front), "startColumn")
    ensures !Truthy(OriginalLocation(front)) ==> r == Field(front.rule, "startColumn")
  {
    Position(front, "startColumn")
  }

  /** `mediaText` is not implemented and is always undefined. */
  function MediaText(front: RuleFront): Json { JUndefined }

  /**
   * The location getters agree: with an original location, the href, line
   * and column all come from it, whatever the sheet and the rule's own fields
   * say.
   */
  lemma OriginalLocationWins(front: RuleFront, fronts: map<Json, StyleSheetFront>, loc: Json)
    requires OriginalLocation(front) == loc && Truthy(loc)
    ensures Href(front, fronts) == Field(loc, "href")
    ensures Line(front) == Field(loc, "startLine") && Column(front) == Field(loc, "startColumn")
  {
  }

  /** Without an original location or a parent sheet there is no href, line and column fall back to the rule. */
  lemma NoLocationFallback(front: RuleFront, fronts: map<Json, StyleSheetFront>)
    requires !Truthy(OriginalLocation(front)) && !Truthy(Field(front.rule, "parentStyleSheet"))
    ensures Href(front, fronts) == JNull && IsSystem(front, fronts) == JNull
    ensures Line(front) == Field(front.rule, "startLine") && Column(front) == Field(front.rule, "startColumn")
  {
  }
}
