// Inline previews of a paused frame: for each binding of the local scopes,
// the references above the paused line are turned into (line, column, name,
// value) previews, nearest reference first and each displayed name once, and
// the previews are then grouped by line.

module InlinePreview {
  import opened Basics
  import opened JsValues

  /** A reference to a binding in the parsed source; `meta` lists the member accesses applied to it, innermost first. */
  datatype Ref = Ref(line: int, column: int, meta: seq<string>)

  datatype AstBinding = AstBinding(refs: seq<Ref>)

  /** A parsed scope: its type ("block", "function", ...) and its bindings by name. */
  datatype AstScope = AstScope(scopeType: string, bindings: map<string, AstBinding>)

  /** A loaded object property, as `loadObjectProperties` returns it. */
  datatype Property = Property(name: string, value: Json)

  datatype Display = Display(name: string, value: Json)

  datatype Preview = Preview(line: int, column: int, name: string, value: Json)

  /**
   * `getLocalScopeLevels`: the number of leading scopes whose type is
   * "block", which are shown together with the first functional scope.
   */
  method GetLocalScopeLevels(scopes: seq<AstScope>) returns (levels: nat)
    ensures levels <= |scopes|
    ensures forall i :: 0 <= i < levels ==> scopes[i].scopeType == "block"
    ensures levels == |scopes| || scopes[levels].scopeType != "block"
  {
    levels := 0;
    while levels < |scopes| && scopes[levels].scopeType == "block"
      invariant levels <= |scopes|
      invariant forall i :: 0 <= i < levels ==> scopes[i].scopeType == "block"
    {
      levels := levels + 1;
    }
  }

  /** `properties.find(prop => prop.name === name)`, then its value, or `undefined`. */
  function FindProperty(properties: seq<Property>, name: string): (r: Json)
    ensures (forall i :: 0 <= i < |properties| ==> properties[i].name != name) ==> r == JUndefined
    ensures (exists i :: 0 <= i < |properties| && properties[i].name == name && properties[i].value == r) ||
      r == JUndefined
  {
    if properties == [] then JUndefined
    else if properties[0].name == name then properties[0].value
    else
      assert forall i :: 0 <= i < |properties| - 1 ==> properties[1..][i] == properties[i + 1];
      FindProperty(properties[1..], name)
  }

  /** `displayValue.preview.ownProperties[property].value`, when all of these exist. */
  function OwnProperty(v: Json, property: string): Option<Json>
  {
    var own := Field(Field(v, "preview"), "ownProperties");
    if Truthy(v) && Truthy(Field(v, "preview")) && own.JObj? && HasKey(own.fields, property) then
      Some(Field(Get(own.fields, property).value, "value"))
    else None
  }

  /**
   * One level of the member chain: the first level is looked up among the
   * loaded properties, later ones in the previous value's preview; a level
   * that resolves appends ".property" to the name.
   */
  function Step(d: Display, value: Json, properties: seq<Property>, property: string): (r: Display)
    ensures r == d || r.name == d.name + "." + property
    ensures d.value == value ==> r.name == d.name + "." + property && r.value == FindProperty(properties, property)
  {
    if d.value == value then Display(d.name + "." + property, FindProperty(properties, property))
    else
      match OwnProperty(d.value, property)
      case Some(v) => Display(d.name + "." + property, v)
      case None => d
  }

  /** The member chain applied level by level. */
  function Walk(d: Display, value: Json, properties: seq<Property>, meta: seq<string>): (r: Display)
    ensures IsPrefix(d.name, r.name)
    decreases |meta|
  {
    if meta == [] then d else Walk(Step(d, value, properties, meta[0]), value, properties, meta[1..])
  }

  /**
   * `getExpressionNameAndValue`: without loaded properties the binding's name
   * and value are shown as they are; with them, the first member access always
   * resolves, against the loaded properties.
   */
  function ExpressionNameAndValue(name: string, value: Json, meta: seq<string>, properties: Option<seq<Property>>): (r: Display)
    ensures properties.None? || meta == [] ==> r == Display(name, value)
    ensures properties.Some? && meta != [] ==> IsPrefix(name + "." + meta[0], r.name)
  {
    if properties.None? then Display(name, value) else Walk(Display(name, value), value, properties.value, meta)
  }

  /** `getExpressionNameAndValue`, with its loop over the member chain. */
  method GetExpressionNameAndValue(name: string, value: Json, meta: seq<string>, properties: Option<seq<Property>>)
    returns (displayName: string, displayValue: Json)
    ensures Display(displayName, displayValue) == ExpressionNameAndValue(name, value, meta, properties)
  {
    displayName, displayValue := name, value;
    if properties.Some? {
      var i := 0;
      while i < |meta|
        invariant 0 <= i <= |meta|
        invariant Walk(Display(displayName, displayValue), value, properties.value, meta[i..]) ==
          ExpressionNameAndValue(name, value, meta, properties)
      {
        assert meta[i..][1..] == meta[i + 1..];
        var property := meta[i];
        if displayValue == value {
          displayValue := FindProperty(properties.value, property);
          displayName := displayName + "." + property;
        } else {
          var found := OwnProperty(displayValue, property);
          if found.Some? {
            displayValue := found.value;
            displayName := displayName + "." + property;
          }
        }
        i := i + 1;
      }
    }
  }

  /** The levels of the chain that resolve, in order. */
  function ResolvedLevels(d: Display, value: Json, properties: seq<Property>, meta: seq<string>): (r: seq<string>)
    ensures Subsequence(r, meta)
    decreases |meta|
  {
    if meta == [] then []
    else
      var next := Step(d, value, properties, meta[0]);
      var rest := ResolvedLevels(next, value, properties, meta[1..]);
      if next == d && d.value != value then rest else [meta[0]] + rest
  }

  /** ".a.b" for the properties ["a", "b"]. */
  function DottedPath(properties: seq<string>): string
  {
    if properties == [] then "" else "." + properties[0] + DottedPath(properties[1..])
  }

  /** The displayed name is the binding's name followed by exactly the levels that resolve. */
  lemma {:induction false} WalkNamesResolvedPath(d: Display, value: Json, properties: seq<Property>, meta: seq<string>)
    ensures Walk(d, value, properties, meta).name == d.name + DottedPath(ResolvedLevels(d, value, properties, meta))
    decreases |meta|
  {
    if meta != [] {
      var next := Step(d, value, properties, meta[0]);
      WalkNamesResolvedPath(next, value, properties, meta[1..]);
      var rest := ResolvedLevels(next, value, properties, meta[1..]);
      if next == d && d.value != value {
      } else {
        assert next.name == d.name + "." + meta[0];
        assert DottedPath([meta[0]] + rest) == "." + meta[0] + DottedPath(rest);
      }
    }
  }

  /** A reference below or on the line before the paused one gets no preview. */
  predicate Shown(ref: Ref, pausedOnLine: int)
  {
    ref.line - 1 < pausedOnLine - 1
  }

  function PreviewOf(ref: Ref, name: string, value: Json, properties: Option<seq<Property>>): (r: Preview)
    ensures r.line == ref.line - 1 && r.column == ref.column
    ensures IsPrefix(name, r.name)
    ensures properties.None? || ref.meta == [] ==> r.name == name && r.value == value
  {
    var d := ExpressionNameAndValue(name, value, ref.meta, properties);
    Preview(ref.line - 1, ref.column, d.name, d.value)
  }

  /** The previews of `refs`, taken from the last reference backwards, skipping names in `seen`. */
  function Backward(refs: seq<Ref>, pausedOnLine: int, name: string, value: Json, properties: Option<seq<Property>>, seen: set<string>): (r: seq<Preview>)
    ensures |r| <= |refs|
    decreases |refs|
  {
    if refs == [] then []
    else
      var ref := refs[|refs| - 1];
      var rest := refs[..|refs| - 1];
      if !Shown(ref, pausedOnLine) then Backward(rest, pausedOnLine, name, value, properties, seen)
      else
        var p := PreviewOf(ref, name, value, properties);
        if p.name in seen then Backward(rest, pausedOnLine, name, value, properties, seen)
        else [p] + Backward(rest, pausedOnLine, name, value, properties, seen + {p.name})
  }

  /** `getBindingValues`: no previews when the scope at `curLevel` has no binding for `name`. */
  function BindingValues(scopes: seq<AstScope>, pausedOnLine: int, name: string, value: Json, curLevel: nat, properties: Option<seq<Property>>): (r: seq<Preview>)
    ensures curLevel >= |scopes| || name !in scopes[curLevel].bindings ==> r == []
  {
    if curLevel < |scopes| && name in scopes[curLevel].bindings then
      Backward(scopes[curLevel].bindings[name].refs, pausedOnLine, name, value, properties, {})
    else []
  }

  /** `getBindingValues`, with its backward loop and its set of shown names. */
  method GetBindingValues(scopes: seq<AstScope>, pausedOnLine: int, name: string, value: Json, curLevel: nat, properties: Option<seq<Property>>)
    returns (previews: seq<Preview>)
    ensures previews == BindingValues(scopes, pausedOnLine, name, value, curLevel, properties)
  {
    if curLevel < |scopes| && name in scopes[curLevel].bindings {
      previews := PreviewsOfRefs(scopes[curLevel].bindings[name].refs, pausedOnLine, name, value, properties);
    } else {
      previews := [];
    }
  }

  /** The loop of `getBindingValues`: references from the last one back, each displayed name once. */
  method PreviewsOfRefs(refs: seq<Ref>, pausedOnLine: int, name: string, value: Json, properties: Option<seq<Property>>)
    returns (previews: seq<Preview>)
    ensures previews == Backward(refs, pausedOnLine, name, value, properties, {})
  {
    previews := [];
    var identifiers: set<string> := {};
    var i := |refs| - 1;
    assert refs[..i + 1] == refs;
    while i >= 0
      invariant -1 <= i < |refs|
      invariant previews + Backward(refs[..i + 1], pausedOnLine, name, value, properties, identifiers) ==
        Backward(refs, pausedOnLine, name, value, properties, {})
    {
      BackwardLast(refs, i, pausedOnLine, name, value, properties, identifiers);
      var ref := refs[i];
      var line := ref.line - 1;
      if line < pausedOnLine - 1 {
        var displayName, displayValue := GetExpressionNameAndValue(name, value, ref.meta, properties);
        if displayName !in identifiers {
          identifiers := identifiers + {displayName};
          previews := previews + [Preview(line, ref.column, displayName, displayValue)];
        }
      }
      i := i - 1;
    }
    assert refs[..0] == [];
  }

  /** One step of the backward walk, at index `i`. */
  lemma BackwardLast(refs: seq<Ref>, i: int, pausedOnLine: int, name: string, value: Json, properties: Option<seq<Property>>, seen: set<string>)
    requires 0 <= i < |refs|
    ensures var p := PreviewOf(refs[i], name, value, properties);
      Backward(refs[..i + 1], pausedOnLine, name, value, properties, seen) ==
      if !Shown(refs[i], pausedOnLine) || p.name in seen then Backward(refs[..i], pausedOnLine, name, value, properties, seen)
      else [p] + Backward(refs[..i], pausedOnLine, name, value, properties, seen + {p.name})
  {
    assert refs[..i + 1][..i] == refs[..i];
  }

  /** Every preview lies above the line before the paused one. */
  lemma {:induction false} BackwardAbovePausedLine(refs: seq<Ref>, pausedOnLine: int, name: string, value: Json, properties: Option<seq<Property>>, seen: set<string>)
    ensures forall p :: p in Backward(refs, pausedOnLine, name, value, properties, seen) ==> p.line < pausedOnLine - 1
    decreases |refs|
  {
    if refs != [] {
      var rest := refs[..|refs| - 1];
      BackwardAbovePausedLine(rest, pausedOnLine, name, value, properties, seen);
      var p := PreviewOf(refs[|refs| - 1], name, value, properties);
      BackwardAbovePausedLine(rest, pausedOnLine, name, value, properties, seen + {p.name});
    }
  }

  function Names(previews: seq<Preview>): (r: seq<string>)
    ensures |r| == |previews| && forall i :: 0 <= i < |r| ==> r[i] == previews[i].name
  {
    if previews == [] then [] else [previews[0].name] + Names(previews[1..])
  }

  /** Each displayed name is shown at most once, and never one already seen. */
  lemma {:induction false} BackwardNamesDistinct(refs: seq<Ref>, pausedOnLine: int, name: string, value: Json, properties: Option<seq<Property>>, seen: set<string>)
    ensures Distinct(Names(Backward(refs, pausedOnLine, name, value, properties, seen)))
    ensures forall p :: p in Backward(refs, pausedOnLine, name, value, properties, seen) ==> p.name !in seen
    decreases |refs|
  {
    if refs != [] {
      var ref := refs[|refs| - 1];
      var rest := refs[..|refs| - 1];
      var p := PreviewOf(ref, name, value, properties);
      if !Shown(ref, pausedOnLine) || p.name in seen {
        BackwardNamesDistinct(rest, pausedOnLine, name, value, properties, seen);
      } else {
        var tail := Backward(rest, pausedOnLine, name, value, properties, seen + {p.name});
        BackwardNamesDistinct(rest, pausedOnLine, name, value, properties, seen + {p.name});
        var r := [p] + tail;
        forall i, j | 0 <= i < j < |r|
          ensures Names(r)[i] != Names(r)[j]
        {
          assert r[j] == tail[j - 1] && tail[j - 1] in tail;
          if i > 0 {
            assert r[i] == tail[i - 1];
            assert Names(tail)[i - 1] != Names(tail)[j - 1];
          }
        }
      }
    }
  }

  /**
   * The nearest reference wins: a shown reference with no later shown
   * reference of the same displayed name has its own preview in the result.
   */
  lemma {:induction false} BackwardNearestWins(refs: seq<Ref>, pausedOnLine: int, name: string, value: Json, properties: Option<seq<Property>>, seen: set<string>, k: int)
    requires 0 <= k < |refs| && Shown(refs[k], pausedOnLine)
    requires PreviewOf(refs[k], name, value, properties).name !in seen
    requires forall j :: k < j < |refs| && Shown(refs[j], pausedOnLine) ==>
      PreviewOf(refs[j], name, value, properties).name != PreviewOf(refs[k], name, value, properties).name
    ensures PreviewOf(refs[k], name, value, properties) in Backward(refs, pausedOnLine, name, value, properties, seen)
    decreases |refs|
  {
    var last := refs[|refs| - 1];
    var rest := refs[..|refs| - 1];
    var p := PreviewOf(last, name, value, properties);
    if k < |refs| - 1 {
      assert rest[k] == refs[k];
      assert forall j :: k < j < |rest| ==> rest[j] == refs[j];
      if !Shown(last, pausedOnLine) || p.name in seen {
        BackwardNearestWins(rest, pausedOnLine, name, value, properties, seen, k);
      } else {
        BackwardNearestWins(rest, pausedOnLine, name, value, properties, seen + {p.name}, k);
      }
    }
  }

  /** Every preview comes from a shown reference whose displayed name was not yet seen. */
  lemma {:induction false} BackwardSound(refs: seq<Ref>, pausedOnLine: int, name: string, value: Json, properties: Option<seq<Property>>, seen: set<string>, q: Preview)
    requires q in Backward(refs, pausedOnLine, name, value, properties, seen)
    ensures q.name !in seen
    ensures exists k :: 0 <= k < |refs| && Shown(refs[k], pausedOnLine) && PreviewOf(refs[k], name, value, properties) == q
    decreases |refs|
  {
    var last := refs[|refs| - 1];
    var rest := refs[..|refs| - 1];
    var p := PreviewOf(last, name, value, properties);
    var seen' := if !Shown(last, pausedOnLine) || p.name in seen then seen else seen + {p.name};
    if Shown(last, pausedOnLine) && p.name !in seen && q == p {
    } else {
      BackwardSound(rest, pausedOnLine, name, value, properties, seen', q);
      var k :| 0 <= k < |rest| && Shown(rest[k], pausedOnLine) && PreviewOf(rest[k], name, value, properties) == q;
      assert rest[k] == refs[k];
    }
  }

  /** The previews of one line, in their order in the sorted list. */
  function OnLine(sorted: seq<Preview>, line: int): (r: seq<Preview>)
    ensures forall p :: p in r ==> p.line == line
    ensures Subsequence(r, sorted)
  {
    if sorted == [] then []
    else if sorted[0].line == line then [sorted[0]] + OnLine(sorted[1..], line)
    else OnLine(sorted[1..], line)
  }

  lemma {:induction false} OnLineSnoc(sorted: seq<Preview>, p: Preview, line: int)
    ensures OnLine(sorted + [p], line) == OnLine(sorted, line) + (if p.line == line then [p] else [])
    decreases |sorted|
  {
    if sorted == [] {
      assert [] + [p] == [p];
    } else {
      assert (sorted + [p])[1..] == sorted[1..] + [p];
      OnLineSnoc(sorted[1..], p, line);
    }
  }

  lemma {:induction false} OnLineAbsent(sorted: seq<Preview>, line: int)
    requires forall p :: p in sorted ==> p.line != line
    ensures OnLine(sorted, line) == []
    decreases |sorted|
  {
    if sorted != [] {
      assert sorted[0] in sorted;
      assert forall p :: p in sorted[1..] ==> p in sorted;
      OnLineAbsent(sorted[1..], line);
    }
  }

  /**
   * The grouping into `previews[line]`: a line has a bucket exactly when some
   * preview is on it, and the bucket holds that line's previews in order.
   */
  method GroupByLine(sorted: seq<Preview>) returns (buckets: map<int, seq<Preview>>)
    ensures forall line :: line in buckets <==> exists p :: p in sorted && p.line == line
    ensures forall line :: line in buckets ==> buckets[line] == OnLine(sorted, line)
  {
    buckets := map[];
    for i := 0 to |sorted|
      invariant forall line :: line in buckets <==> exists p :: p in sorted[..i] && p.line == line
      invariant forall line :: line in buckets ==> buckets[line] == OnLine(sorted[..i], line)
    {
      var p := sorted[i];
      assert sorted[..i + 1] == sorted[..i] + [p];
      forall line
        ensures OnLine(sorted[..i + 1], line) == OnLine(sorted[..i], line) + (if p.line == line then [p] else [])
      {
        OnLineSnoc(sorted[..i], p, line);
      }
      if p.line !in buckets {
        OnLineAbsent(sorted[..i], p.line);
        buckets := buckets[p.line := [p]];
      } else {
        buckets := buckets[p.line := buckets[p.line] + [p]];
      }
    }
    assert sorted[..|sorted|] == sorted;
  }

  /** `sortBy(previews, ["line", "column"])` order. */
  predicate SortedByPosition(s: seq<Preview>)
  {
    forall i, j :: 0 <= i < j < |s| ==>
      s[i].line < s[j].line || (s[i].line == s[j].line && s[i].column <= s[j].column)
  }

  /** After sorting, each line's bucket is ordered by column. */
  lemma {:induction false} OnLineSortedByColumn(sorted: seq<Preview>, line: int)
    requires SortedByPosition(sorted)
    ensures forall i, j :: 0 <= i < j < |OnLine(sorted, line)| ==> OnLine(sorted, line)[i].column <= OnLine(sorted, line)[j].column
    decreases |sorted|
  {
    if sorted != [] {
      OnLineSortedByColumn(sorted[1..], line);
      var tail := OnLine(sorted[1..], line);
      if sorted[0].line == line {
        SubsequenceMembers(tail, sorted[1..]);
        forall j | 0 <= j < |tail|
          ensures sorted[0].column <= tail[j].column
        {
          assert tail[j] in sorted[1..];
          var m :| 0 <= m < |sorted[1..]| && sorted[1..][m] == tail[j];
          assert sorted[m + 1] == tail[j];
        }
        var r := [sorted[0]] + tail;
        forall i, j | 0 <= i < j < |r|
          ensures r[i].column <= r[j].column
        {
          assert r[j] == tail[j - 1];
          if i > 0 {
            assert r[i] == tail[i - 1];
          }
        }
      }
    }
  }
}
