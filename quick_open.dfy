// The debugger's quick-open box: what kind of search a query asks for, the
// "line:column" of a goto query, and the result lists built from sources and
// symbols.

module QuickOpen {
  import opened Basics

  datatype QuickOpenType = Functions | Variables | Goto | Shortcuts | GotoSource | Sources

  /** `MODIFIERS`: the search a leading character selects. */
  function Modifier(c: char): Option<QuickOpenType>
  {
    match c
    case '@' => Some(Functions)
    case '#' => Some(Variables)
    case ':' => Some(Goto)
    case '?' => Some(Shortcuts)
    case _ => None
  }

  /** `parseQuickOpenQuery`. */
  function ParseQuickOpenQuery(query: string): (r: QuickOpenType)
    ensures |query| > 0 && query[0] == '@' ==> r == Functions
    ensures |query| > 0 && query[0] == '#' ==> r == Variables
    ensures |query| > 0 && query[0] == ':' ==> r == Goto
    ensures |query| > 0 && query[0] == '?' ==> r == Shortcuts
    ensures (|query| == 0 || Modifier(query[0]).None?) ==>
      (r == GotoSource <==> exists i :: 1 <= i < |query| && query[i] == ':') &&
      (r == Sources <==> forall i :: 1 <= i < |query| ==> query[i] != ':')
  {
    if |query| > 0 && Modifier(query[0]).Some? then Modifier(query[0]).value
    else if |query| > 1 && ':' in query[1..] then GotoSource
    else Sources
  }

  predicate IsSpace(c: char)
  {
    c == ' ' || c == '\t' || c == '\n' || c == '\r'
  }

  /** The longest prefix of decimal digits. */
  function DigitPrefix(s: string): (d: string)
    ensures AllDigits(d) && IsPrefix(d, s)
    ensures |d| < |s| ==> !IsDigit(s[|d|])
  {
    if s == [] || !IsDigit(s[0]) then ""
    else [s[0]] + DigitPrefix(s[1..])
  }

  /**
   * `parseInt(s, 10)`: leading white space, an optional sign, then as many
   * digits as there are; no digit at all is NaN (`None`).
   */
  function ParseInt(s: string): (r: Option<int>)
    ensures AllDigits(s) && |s| > 0 ==> r == Some(ParseDigits(s))
  {
    if |s| > 0 && IsSpace(s[0]) then ParseInt(s[1..])
    else
      var negative := |s| > 0 && s[0] == '-';
      var unsigned := if |s| > 0 && (s[0] == '-' || s[0] == '+') then s[1..] else s;
      var digits := DigitPrefix(unsigned);
      assert AllDigits(s) && |s| > 0 ==> digits == s by {
        if AllDigits(s) && |s| > 0 {
          DigitPrefixOfDigits(s);
        }
      }
      var magnitude: int := if digits == "" then 0 else ParseDigits(digits);
      if digits == "" then None
      else if negative then Some(-magnitude)
      else Some(magnitude)
  }

  lemma {:induction false} DigitPrefixOfDigits(s: string)
    requires AllDigits(s)
    ensures DigitPrefix(s) == s
  {
    if s != [] {
      DigitPrefixOfDigits(s[1..]);
    }
  }

  datatype LineColumn = LineColumn(line: int, column: Option<int>)

  /** The `i`th ":"-field of a query, `undefined` when there are fewer fields. */
  function Field(parts: seq<string>, i: nat): Option<string>
  {
    if i < |parts| then Some(parts[i]) else None
  }

  function ParseField(field: Option<string>): Option<int>
  {
    if field.Some? then ParseInt(field.value) else None
  }

  /** `parseLineColumn`: the line from the second ":"-field, and the column from the third when it parses. */
  function ParseLineColumn(query: string): (r: Option<LineColumn>)
    ensures r.None? <==> ParseField(Field(Split(query, ':'), 1)).None?
    ensures r.Some? ==> r.value.line == ParseField(Field(Split(query, ':'), 1)).value
    ensures r.Some? ==> r.value.column == ParseField(Field(Split(query, ':'), 2))
  {
    var parts := Split(query, ':');
    var line := ParseField(Field(parts, 1));
    var column := ParseField(Field(parts, 2));
    if line.Some? then Some(LineColumn(line.value, column)) else None
  }

  /** A goto query ":line:column" gives the line and column back. */
  lemma ParseLineColumnRoundTrip(line: nat, column: nat)
    ensures ParseLineColumn(":" + NatToString(line) + ":" + NatToString(column)) == Some(LineColumn(line, Some(column)))
  {
    var l, c := NatToString(line), NatToString(column);
    SplitGotoQuery(l, c);
    assert ParseInt(l) == Some(line as int);
    assert ParseInt(c) == Some(column as int);
  }

  lemma SplitGotoQuery(l: string, c: string)
    requires AllDigits(l) && AllDigits(c)
    ensures Split(":" + l + ":" + c, ':') == ["", l, c]
  {
    DigitsExclude(l, ':');
    DigitsExclude(c, ':');
    var parts := ["", l, c];
    assert parts[1..] == [l, c];
    assert Join([l, c], ':') == l + ":" + c;
    assert Join(parts, ':') == ":" + l + ":" + c;
    JoinSplit(parts, ':');
  }

  /** A goto query without a column gives the line and no column. */
  lemma ParseLineOnly(line: nat)
    ensures ParseLineColumn(":" + NatToString(line)) == Some(LineColumn(line, None))
  {
    var l := NatToString(line);
    assert Split(":" + l, ':') == ["", l] by {
      DigitsExclude(l, ':');
      assert Join(["", l], ':') == ":" + l;
      JoinSplit(["", l], ':');
    }
    assert ParseInt(l) == Some(line as int);
  }

  /** A parser symbol: its name and the line it starts on. */
  datatype Symbol = Symbol(name: string, startLine: nat)

  datatype SymbolResult = SymbolResult(id: string, title: string, subtitle: string, value: string, line: nat)

  /** `formatSymbol`: the id is "name:line". */
  function FormatSymbol(symbol: Symbol): (r: SymbolResult)
    ensures r.title == symbol.name && r.value == symbol.name && r.line == symbol.startLine
  {
    SymbolResult(symbol.name + ":" + NatToString(symbol.startLine), symbol.name, NatToString(symbol.startLine), symbol.name, symbol.startLine)
  }

  /** A symbol result's id splits back into the name and the line, for names without ":". */
  lemma FormatSymbolIdParts(symbol: Symbol)
    requires ':' !in symbol.name
    ensures Split(FormatSymbol(symbol).id, ':') == [symbol.name, FormatSymbol(symbol).subtitle]
    ensures ParseDigits(Split(FormatSymbol(symbol).id, ':')[1]) == symbol.startLine
  {
    var line := NatToString(symbol.startLine);
    DigitsExclude(line, ':');
    assert Join([symbol.name, line], ':') == symbol.name + ":" + line;
    JoinSplit([symbol.name, line], ':');
  }

  datatype Symbols = Symbols(loading: bool, functions: seq<Symbol>)

  /** `formatSymbols`: no functions for missing or loading symbols, otherwise each function formatted. */
  function FormatSymbols(symbols: Option<Symbols>): (r: seq<SymbolResult>)
    ensures symbols.None? || symbols.value.loading ==> r == []
    ensures symbols.Some? && !symbols.value.loading ==>
      |r| == |symbols.value.functions| && forall i :: 0 <= i < |r| ==> r[i] == FormatSymbol(symbols.value.functions[i])
  {
    if symbols.None? || symbols.value.loading then []
    else seq(|symbols.value.functions|, i requires 0 <= i < |symbols.value.functions| => FormatSymbol(symbols.value.functions[i]))
  }

  /**
   * A source as the list needs it.  `isPretty` stands for the `isPretty`
   * helper and `queryString` for what `getSourceQueryString` gives for the
   * source, with "" for a falsy answer; neither helper is part of this model.
   */
  datatype Source = Source(id: string, url: string, relativeUrl: string, queryString: string, isPretty: bool)

  /** `formatSourcesForList`, reduced to the entry's id, URL, value and whether the URL is open in a tab. */
  datatype SourceResult = SourceResult(id: string, url: string, value: string, inTab: bool)

  /** The entry's value is the relative URL followed by the query string; it shows the tab icon exactly for an open URL. */
  function FormatSourceForList(source: Source, tabUrls: set<string>): (r: SourceResult)
    ensures r.id == source.id && r.url == source.url
    ensures |r.value| == |source.relativeUrl| + |source.queryString|
    ensures r.value[..|source.relativeUrl|] == source.relativeUrl && r.value[|source.relativeUrl|..] == source.queryString
    ensures Listed(source) ==> r.value != ""
    ensures r.inTab <==> source.url in tabUrls
  {
    SourceResult(source.id, source.url, source.relativeUrl + source.queryString, source.url in tabUrls)
  }

  predicate Listed(source: Source)
  {
    source.relativeUrl != "" && !source.isPretty
  }

  /** The sources the list shows: those with a relative URL that are not pretty-printed, in order. */
  function ListedSources(sources: seq<Source>): (r: seq<Source>)
    ensures forall s :: s in r <==> s in sources && Listed(s)
    ensures Subsequence(r, sources)
  {
    if sources == [] then []
    else
      var rest := ListedSources(sources[1..]);
      if Listed(sources[0]) then [sources[0]] + rest else rest
  }

  /** `formatSources`: one entry per listed source, in order. */
  method FormatSources(sources: seq<Source>, tabUrls: set<string>) returns (formatted: seq<SourceResult>)
    ensures |formatted| == |ListedSources(sources)|
    ensures forall i :: 0 <= i < |formatted| ==> formatted[i] == FormatSourceForList(ListedSources(sources)[i], tabUrls)
  {
    formatted := [];
    var i := 0;
    while i < |sources|
      invariant 0 <= i <= |sources|
      invariant |formatted| == |ListedSources(sources[..i])|
      invariant forall k :: 0 <= k < |formatted| ==> formatted[k] == FormatSourceForList(ListedSources(sources[..i])[k], tabUrls)
    {
      var source := sources[i];
      assert sources[..i + 1] == sources[..i] + [source];
      ListedSourcesSnoc(sources[..i], source);
      if source.relativeUrl != "" && !source.isPretty {
        formatted := formatted + [FormatSourceForList(source, tabUrls)];
      }
      i := i + 1;
    }
    assert sources[..i] == sources;
  }

  lemma ListedSourcesSnoc(a: seq<Source>, source: Source)
    ensures ListedSources(a + [source]) == ListedSources(a) + (if Listed(source) then [source] else [])
  {
    ListedSourcesAppend(a, [source]);
  }

  lemma {:induction false} ListedSourcesAppend(a: seq<Source>, b: seq<Source>)
    ensures ListedSources(a + b) == ListedSources(a) + ListedSources(b)
    decreases |a|
  {
    if a == [] {
      assert a + b == b;
    } else {
      assert (a + b)[1..] == a[1..] + b;
      ListedSourcesAppend(a[1..], b);
    }
  }
}
