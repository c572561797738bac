// Completing the details of newly reported sources: the "generated",
// "canonical" and "pretty-printed" graphs between sources, the groups of
// corresponding sources, and each source's canonical id.

module Sources {
  import opened Basics

  /** A source as the protocol reports it. */
  datatype NewSource = NewSource(
    sourceId: string,
    kind: string,
    url: string,
    contentHash: Option<string>,
    generatedSourceIds: Option<seq<string>>)

  /** A possibly missing string, as a template literal renders it. */
  function Text(v: Option<string>): string
  {
    if v.Some? then v.value else "undefined"
  }

  /** The exported `keyForSource`. */
  function KeyForSource(s: NewSource): string
  {
    s.url + ":" + Text(s.contentHash)
  }

  /** The key splits into the url's own fields followed by the content hash. */
  lemma KeyForSourceSplit(s: NewSource)
    requires ':' !in Text(s.contentHash)
    ensures Split(KeyForSource(s), ':') == Split(s.url, ':') + [Text(s.contentHash)]
  {
    assert KeyForSource(s) == s.url + [':'] + Text(s.contentHash);
    SplitAppend(s.url, Text(s.contentHash), ':');
  }

  /** Content hashes carry no ":", so equal keys mean equal urls and hashes, even for urls with ":" in them. */
  lemma KeyForSourceDetermines(a: NewSource, b: NewSource)
    requires ':' !in Text(a.contentHash) && ':' !in Text(b.contentHash)
    requires KeyForSource(a) == KeyForSource(b)
    ensures a.url == b.url && Text(a.contentHash) == Text(b.contentHash)
  {
    KeyForSourceSplit(a);
    KeyForSourceSplit(b);
    var ka := Split(a.url, ':') + [Text(a.contentHash)];
    var kb := Split(b.url, ':') + [Text(b.contentHash)];
    assert ka == kb;
    assert ka[|ka| - 1] == kb[|kb| - 1];
    assert Split(a.url, ':') == ka[..|ka| - 1] == kb[..|kb| - 1] == Split(b.url, ':');
    SplitJoin(a.url, ':');
    SplitJoin(b.url, ':');
  }

  /** The completed details of a source. */
  datatype SourceDetails = SourceDetails(
    id: string,
    kind: string,
    url: string,
    contentHash: Option<string>,
    canonicalId: string,
    correspondingSourceIds: seq<string>,
    generated: seq<string>,
    generatedFrom: seq<string>,
    prettyPrinted: Option<string>,
    prettyPrintedFrom: Option<string>)

  /** Details as supplied to `fullSourceDetails`: `None` marks an attribute that was not given. */
  datatype Attributes = Attributes(
    id: string,
    kind: string,
    url: string,
    contentHash: Option<string>,
    canonicalId: Option<string>,
    correspondingSourceIds: Option<seq<string>>,
    generated: Option<seq<string>>,
    generatedFrom: Option<seq<string>>,
    prettyPrinted: Option<string>,
    prettyPrintedFrom: Option<string>)

  function OrElse<T>(v: Option<T>, default: T): T
  {
    if v.Some? then v.value else default
  }

  /** `fullSourceDetails`: the defaults, overridden by every attribute supplied. */
  function FullSourceDetails(a: Attributes): (r: SourceDetails)
    ensures r.id == a.id && r.kind == a.kind && r.url == a.url && r.contentHash == a.contentHash
    ensures r.prettyPrinted == a.prettyPrinted && r.prettyPrintedFrom == a.prettyPrintedFrom
  {
    SourceDetails(
      a.id, a.kind, a.url, a.contentHash,
      OrElse(a.canonicalId, a.id),
      OrElse(a.correspondingSourceIds, []),
      OrElse(a.generated, []),
      OrElse(a.generatedFrom, []),
      a.prettyPrinted, a.prettyPrintedFrom)
  }

  /** Without the optional attributes a source is its own canonical source and has no relations. */
  lemma FullSourceDetailsDefaults(a: Attributes)
    requires a.canonicalId.None? && a.correspondingSourceIds.None? && a.generated.None? && a.generatedFrom.None?
    ensures FullSourceDetails(a).canonicalId == a.id
    ensures FullSourceDetails(a).correspondingSourceIds == [] && FullSourceDetails(a).generated == [] &&
      FullSourceDetails(a).generatedFrom == []
  {
  }

  /** Supplied attributes win over the defaults. */
  lemma FullSourceDetailsOverrides(a: Attributes)
    requires a.canonicalId.Some? && a.correspondingSourceIds.Some? && a.generated.Some? && a.generatedFrom.Some?
    ensures FullSourceDetails(a).canonicalId == a.canonicalId.value
    ensures FullSourceDetails(a).correspondingSourceIds == a.correspondingSourceIds.value
    ensures FullSourceDetails(a).generated == a.generated.value && FullSourceDetails(a).generatedFrom == a.generatedFrom.value
  {
  }

  // ---- Graphs between sources ----

  /** A directed graph kept as insertion-ordered edge lists in both directions. */
  datatype Graph = Graph(outgoing: map<string, seq<string>>, incoming: map<string, seq<string>>)

  const EmptyGraph: Graph := Graph(map[], map[])

  function Edges(m: map<string, seq<string>>, k: string): seq<string>
  {
    if k in m then m[k] else []
  }

  /** `connectNode(a, b)`: `b` is added after `a`'s other successors, `a` after `b`'s other predecessors. */
  function Connect(g: Graph, a: string, b: string): (r: Graph)
    ensures forall k :: Edges(r.outgoing, k) == Edges(g.outgoing, k) + (if k == a then [b] else [])
    ensures forall k :: Edges(r.incoming, k) == Edges(g.incoming, k) + (if k == b then [a] else [])
  {
    Graph(g.outgoing[a := Edges(g.outgoing, a) + [b]], g.incoming[b := Edges(g.incoming, b) + [a]])
  }

  /** `graph.from(id)`: the successors, or `undefined` when there are none. */
  function From(g: Graph, id: string): Option<seq<string>>
  {
    if |Edges(g.outgoing, id)| > 0 then Some(Edges(g.outgoing, id)) else None
  }

  /** `graph.to(id)`: the predecessors, or `undefined` when there are none. */
  function To(g: Graph, id: string): Option<seq<string>>
  {
    if |Edges(g.incoming, id)| > 0 then Some(Edges(g.incoming, id)) else None
  }

  /** `list?.[0]`. */
  function First(v: Option<seq<string>>): Option<string>
  {
    if v.Some? && |v.value| > 0 then Some(v.value[0]) else None
  }

  // ---- The generated graph ----

  function ConnectAll(g: Graph, a: string, targets: seq<string>): Graph
    decreases |targets|
  {
    if targets == [] then g else Connect(ConnectAll(g, a, targets[..|targets| - 1]), a, targets[|targets| - 1])
  }

  /** A pretty-printed source adds no generated edges; any other source links to each of its generated sources. */
  function AddGenerated(g: Graph, s: NewSource): Graph
  {
    if s.kind == "prettyPrinted" || s.generatedSourceIds.None? then g
    else ConnectAll(g, s.sourceId, s.generatedSourceIds.value)
  }

  function GeneratedGraph(sources: seq<NewSource>): Graph
    decreases |sources|
  {
    if sources == [] then EmptyGraph
    else AddGenerated(GeneratedGraph(sources[..|sources| - 1]), sources[|sources| - 1])
  }

  /** The generated ids of the sources with id `id` that are not pretty-printed, in order. */
  function GeneratedIds(sources: seq<NewSource>, id: string): seq<string>
    decreases |sources|
  {
    if sources == [] then []
    else
      var s := sources[|sources| - 1];
      GeneratedIds(sources[..|sources| - 1], id) +
        (if s.sourceId == id && s.kind != "prettyPrinted" && s.generatedSourceIds.Some? then s.generatedSourceIds.value else [])
  }

  lemma {:induction false} ConnectAllEdges(g: Graph, a: string, targets: seq<string>)
    ensures forall k :: Edges(ConnectAll(g, a, targets).outgoing, k) == Edges(g.outgoing, k) + (if k == a then targets else [])
    decreases |targets|
  {
    if targets != [] {
      var init := targets[..|targets| - 1];
      ConnectAllEdges(g, a, init);
      assert init + [targets[|targets| - 1]] == targets;
    }
  }

  /** A source's generated edges are exactly the generated ids its non-pretty-printed entries list. */
  lemma {:induction false} GeneratedEdges(sources: seq<NewSource>)
    ensures forall k :: Edges(GeneratedGraph(sources).outgoing, k) == GeneratedIds(sources, k)
    decreases |sources|
  {
    if sources != [] {
      var s := sources[|sources| - 1];
      GeneratedEdges(sources[..|sources| - 1]);
      if !(s.kind == "prettyPrinted" || s.generatedSourceIds.None?) {
        ConnectAllEdges(GeneratedGraph(sources[..|sources| - 1]), s.sourceId, s.generatedSourceIds.value);
      }
    }
  }

  /** The loop building the generated graph. */
  method BuildGenerated(sources: seq<NewSource>) returns (g: Graph)
    ensures g == GeneratedGraph(sources)
  {
    g := EmptyGraph;
    for i := 0 to |sources|
      invariant g == GeneratedGraph(sources[..i])
    {
      assert sources[..i + 1][..i] == sources[..i];
      var s := sources[i];
      if s.kind != "prettyPrinted" && s.generatedSourceIds.Some? {
        var ids := s.generatedSourceIds.value;
        ghost var before := g;
        for j := 0 to |ids|
          invariant g == ConnectAll(before, s.sourceId, ids[..j])
        {
          assert ids[..j + 1][..j] == ids[..j];
          g := Connect(g, s.sourceId, ids[j]);
        }
        assert ids[..|ids|] == ids;
      }
    }
    assert sources[..|sources|] == sources;
  }

  // ---- The canonical graph ----

  const TypeError: string := "TypeError"

  /** `groupBy(sources, kind)[kind] || []`. */
  function OfKind(sources: seq<NewSource>, kind: string): (r: seq<NewSource>)
    ensures forall s :: s in r <==> s in sources && s.kind == kind
    ensures Subsequence(r, sources)
    decreases |sources|
  {
    if sources == [] then []
    else if sources[0].kind == kind then [sources[0]] + OfKind(sources[1..], kind)
    else
      assert forall s :: s in sources <==> s == sources[0] || s in sources[1..];
      OfKind(sources[1..], kind)
  }

  /**
   * An inline script links to its first generating source, any other source
   * from its first generated source; a source without one throws.
   */
  function LinkStep(generated: Graph, c: Graph, s: NewSource): Result<Graph>
  {
    if s.kind == "inlineScript" then
      match First(To(generated, s.sourceId))
      case None => Throws(TypeError)
      case Some(t) => Ok(Connect(c, s.sourceId, t))
    else
      match First(From(generated, s.sourceId))
      case None => Throws(TypeError)
      case Some(f) => Ok(Connect(c, f, s.sourceId))
  }

  function LinkAll(generated: Graph, c: Graph, srcs: seq<NewSource>): Result<Graph>
    decreases |srcs|
  {
    if srcs == [] then Ok(c)
    else
      match LinkAll(generated, c, srcs[..|srcs| - 1])
      case Throws(e) => Throws(e)
      case Ok(c') => LinkStep(generated, c', srcs[|srcs| - 1])
  }

  /** A source that has a generated relation of the kind it needs. */
  predicate Linkable(generated: Graph, s: NewSource)
  {
    if s.kind == "inlineScript" then To(generated, s.sourceId).Some? else From(generated, s.sourceId).Some?
  }

  lemma LinkStepOk(generated: Graph, c: Graph, s: NewSource)
    ensures LinkStep(generated, c, s).Ok? <==> Linkable(generated, s)
  {
  }

  predicate AllLinkable(generated: Graph, srcs: seq<NewSource>)
  {
    forall i :: 0 <= i < |srcs| ==> Linkable(generated, srcs[i])
  }

  lemma AllLinkableSnoc(generated: Graph, srcs: seq<NewSource>)
    requires srcs != []
    ensures AllLinkable(generated, srcs) <==>
      AllLinkable(generated, srcs[..|srcs| - 1]) && Linkable(generated, srcs[|srcs| - 1])
  {
    assert forall i :: 0 <= i < |srcs| - 1 ==> srcs[..|srcs| - 1][i] == srcs[i];
  }

  /** Linking fails exactly when some source lacks the generated relation it needs. */
  lemma {:induction false} LinkAllSucceeds(generated: Graph, c: Graph, srcs: seq<NewSource>)
    ensures LinkAll(generated, c, srcs).Ok? <==> AllLinkable(generated, srcs)
    decreases |srcs|
  {
    if srcs != [] {
      var init := srcs[..|srcs| - 1];
      LinkAllSucceeds(generated, c, init);
      AllLinkableSnoc(generated, srcs);
      match LinkAll(generated, c, init)
      case Ok(c') =>
        LinkStepOk(generated, c', srcs[|srcs| - 1]);
      case Throws(_) =>
    }
  }

  lemma {:induction false} LinkAllThrows(generated: Graph, c: Graph, srcs: seq<NewSource>, j: int)
    requires 0 <= j <= |srcs| && LinkAll(generated, c, srcs[..j]).Throws?
    ensures LinkAll(generated, c, srcs) == LinkAll(generated, c, srcs[..j])
    decreases |srcs|
  {
    if j < |srcs| {
      var init := srcs[..|srcs| - 1];
      assert init[..j] == srcs[..j];
      LinkAllThrows(generated, c, init, j);
    } else {
      assert srcs[..j] == srcs;
    }
  }

  /** The loops adding canonical links. */
  method Link(generated: Graph, c: Graph, srcs: seq<NewSource>) returns (r: Result<Graph>)
    ensures r == LinkAll(generated, c, srcs)
  {
    var canonical := c;
    for i := 0 to |srcs|
      invariant LinkAll(generated, c, srcs[..i]) == Ok(canonical)
    {
      assert srcs[..i + 1][..i] == srcs[..i];
      var s := srcs[i];
      var next := if s.kind == "inlineScript" then First(To(generated, s.sourceId)) else First(From(generated, s.sourceId));
      if next.None? {
        LinkAllThrows(generated, c, srcs, i + 1);
        return Throws(TypeError);
      }
      canonical := if s.kind == "inlineScript" then Connect(canonical, s.sourceId, next.value)
        else Connect(canonical, next.value, s.sourceId);
    }
    assert srcs[..|srcs|] == srcs;
    r := Ok(canonical);
  }

  // ---- Corresponding sources ----

  /** `keyBy(sources, s => s.sourceId)`: the last source with each id. */
  function ById(sources: seq<NewSource>): (r: map<string, NewSource>)
    ensures forall id :: id in r <==> exists s :: s in sources && s.sourceId == id
    ensures forall id :: id in r ==> r[id] in sources && r[id].sourceId == id
    decreases |sources|
  {
    if sources == [] then map[]
    else
      var init := sources[..|sources| - 1];
      var s := sources[|sources| - 1];
      assert forall x :: x in sources <==> x in init || x == s;
      ById(init)[s.sourceId := s]
  }

  /**
   * `contentHashForSource`: a pretty-printed source takes the hash of its first
   * generated source; reading it throws when there is no such source.
   */
  function ContentHashFor(byId: map<string, NewSource>, s: NewSource): (r: Result<Option<string>>)
    ensures s.kind != "prettyPrinted" ==> r == Ok(s.contentHash)
    ensures s.kind == "prettyPrinted" && r.Ok? ==>
      s.generatedSourceIds.Some? && |s.generatedSourceIds.value| > 0 &&
      s.generatedSourceIds.value[0] in byId && r.value == byId[s.generatedSourceIds.value[0]].contentHash
  {
    if s.kind == "prettyPrinted" then
      if s.generatedSourceIds.None? || |s.generatedSourceIds.value| == 0 || s.generatedSourceIds.value[0] !in byId then
        Throws(TypeError)
      else Ok(byId[s.generatedSourceIds.value[0]].contentHash)
    else Ok(s.contentHash)
  }

  /** The inner `keyForSource`: "kind:url:contentHash". */
  function FullKey(byId: map<string, NewSource>, s: NewSource): Result<string>
  {
    match ContentHashFor(byId, s)
    case Throws(e) => Throws(e)
    case Ok(h) => Ok(s.kind + ":" + s.url + ":" + Text(h))
  }

  function CorrespondingOf(byId: map<string, NewSource>, sources: seq<NewSource>): Result<map<string, seq<string>>>
    decreases |sources|
  {
    if sources == [] then Ok(map[])
    else
      var s := sources[|sources| - 1];
      match CorrespondingOf(byId, sources[..|sources| - 1])
      case Throws(e) => Throws(e)
      case Ok(m) =>
        match FullKey(byId, s)
        case Throws(e) => Throws(e)
        case Ok(key) => Ok(m[key := Edges(m, key) + [s.sourceId]])
  }

  lemma {:induction false} CorrespondingThrows(byId: map<string, NewSource>, sources: seq<NewSource>, j: int)
    requires 0 <= j <= |sources| && CorrespondingOf(byId, sources[..j]).Throws?
    ensures CorrespondingOf(byId, sources) == CorrespondingOf(byId, sources[..j])
    decreases |sources|
  {
    if j < |sources| {
      var init := sources[..|sources| - 1];
      assert init[..j] == sources[..j];
      CorrespondingThrows(byId, init, j);
    } else {
      assert sources[..j] == sources;
    }
  }

  /**
   * When grouping succeeds, every source's key is readable, and a key's group
   * lists exactly the ids of the sources with that key.
   */
  lemma {:induction false} CorrespondingMembers(byId: map<string, NewSource>, sources: seq<NewSource>)
    requires CorrespondingOf(byId, sources).Ok?
    ensures forall s :: s in sources ==> FullKey(byId, s).Ok?
    ensures forall key, id :: id in Edges(CorrespondingOf(byId, sources).value, key) <==>
      exists s :: s in sources && s.sourceId == id && FullKey(byId, s) == Ok(key)
    decreases |sources|
  {
    if sources != [] {
      var init := sources[..|sources| - 1];
      var s := sources[|sources| - 1];
      CorrespondingMembers(byId, init);
      assert forall x :: x in sources <==> x in init || x == s;
      var m := CorrespondingOf(byId, init).value;
      var key := FullKey(byId, s).value;
      var m' := CorrespondingOf(byId, sources).value;
      assert m' == m[key := Edges(m, key) + [s.sourceId]];
      forall k, id
        ensures id in Edges(m', k) <==> exists x :: x in sources && x.sourceId == id && FullKey(byId, x) == Ok(k)
      {
        if k == key {
          assert Edges(m', k) == Edges(m, k) + [s.sourceId];
          if id == s.sourceId {
            assert s in sources && FullKey(byId, s) == Ok(k);
          }
        } else {
          assert Edges(m', k) == Edges(m, k);
        }
      }
    }
  }

  /** The loop filling `corresponding`. */
  method BuildCorresponding(byId: map<string, NewSource>, sources: seq<NewSource>) returns (r: Result<map<string, seq<string>>>)
    ensures r == CorrespondingOf(byId, sources)
  {
    var corresponding: map<string, seq<string>> := map[];
    for i := 0 to |sources|
      invariant CorrespondingOf(byId, sources[..i]) == Ok(corresponding)
    {
      assert sources[..i + 1][..i] == sources[..i];
      var key := FullKey(byId, sources[i]);
      if key.Throws? {
        CorrespondingThrows(byId, sources, i + 1);
        return Throws(key.error);
      }
      var group := if key.value in corresponding then corresponding[key.value] else [];
      corresponding := corresponding[key.value := group + [sources[i].sourceId]];
    }
    assert sources[..|sources|] == sources;
    r := Ok(corresponding);
  }

  // ---- Pretty-printed links ----

  /** `source.generatedSourceIds![0]`, which the content hash has already required to exist. */
  function FirstGenerated(s: NewSource): string
  {
    if s.generatedSourceIds.Some? && |s.generatedSourceIds.value| > 0 then s.generatedSourceIds.value[0] else "undefined"
  }

  /** Each pretty-printed source hangs off its minified source, and is canonically that source. */
  function PrettyLinks(pretty: Graph, canonical: Graph, srcs: seq<NewSource>): (Graph, Graph)
    decreases |srcs|
  {
    if srcs == [] then (pretty, canonical)
    else
      var (p, c) := PrettyLinks(pretty, canonical, srcs[..|srcs| - 1]);
      var s := srcs[|srcs| - 1];
      (Connect(p, FirstGenerated(s), s.sourceId), Connect(c, s.sourceId, FirstGenerated(s)))
  }

  method BuildPrettyLinks(canonical: Graph, srcs: seq<NewSource>) returns (pretty: Graph, canonical': Graph)
    ensures (pretty, canonical') == PrettyLinks(EmptyGraph, canonical, srcs)
  {
    pretty, canonical' := EmptyGraph, canonical;
    for i := 0 to |srcs|
      invariant (pretty, canonical') == PrettyLinks(EmptyGraph, canonical, srcs[..i])
    {
      assert srcs[..i + 1][..i] == srcs[..i];
      var nonPrettyPrintedVersionId := FirstGenerated(srcs[i]);
      pretty := Connect(pretty, nonPrettyPrintedVersionId, srcs[i].sourceId);
      canonical' := Connect(canonical', srcs[i].sourceId, nonPrettyPrintedVersionId);
    }
    assert srcs[..|srcs|] == srcs;
  }

  // ---- Canonical ids ----

  /** `canonical.from(current)?.[0]`, when truthy. */
  function Next(g: Graph, current: string): Option<string>
  {
    var n := First(From(g, current));
    if n.Some? && n.value != "" then n else None
  }

  /** Where `findCanonicalId` stops: no next node, or a link to itself. */
  predicate Stops(g: Graph, current: string)
  {
    Next(g, current).None? || Next(g, current).value == current
  }

  function Follow(g: Graph, current: string): string
  {
    if Stops(g, current) then current else Next(g, current).value
  }

  function FollowN(g: Graph, id: string, n: nat): string
    decreases n
  {
    if n == 0 then id else FollowN(g, Follow(g, id), n - 1)
  }

  /** Following first links from `id` eventually stops (the canonical links have no longer cycle). */
  ghost predicate Settles(g: Graph, id: string)
  {
    exists n: nat :: Stops(g, FollowN(g, id, n))
  }

  /** `id`'s canonical id is `c`: the chain of first links from `id` reaches `c` and stops there. */
  ghost predicate CanonicalOf(g: Graph, id: string, c: string)
  {
    Stops(g, c) && exists n: nat :: FollowN(g, id, n) == c
  }

  lemma {:induction false} FollowNSnoc(g: Graph, id: string, n: nat)
    ensures FollowN(g, id, n + 1) == Follow(g, FollowN(g, id, n))
    decreases n
  {
    if n > 0 {
      FollowNSnoc(g, Follow(g, id), n - 1);
    }
  }

  /** Once the chain stops it stays where it stopped. */
  lemma {:induction false} FollowNStays(g: Graph, id: string, n: nat, m: nat)
    requires Stops(g, FollowN(g, id, n)) && n <= m
    ensures FollowN(g, id, m) == FollowN(g, id, n)
    decreases m - n
  {
    if n < m {
      FollowNStays(g, id, n, m - 1);
      FollowNSnoc(g, id, m - 1);
    }
  }

  /** A source has one canonical id. */
  lemma CanonicalOfUnique(g: Graph, id: string, c: string, d: string)
    requires CanonicalOf(g, id, c) && CanonicalOf(g, id, d)
    ensures c == d
  {
    var n: nat :| FollowN(g, id, n) == c;
    var m: nat :| FollowN(g, id, m) == d;
    if n <= m {
      FollowNStays(g, id, n, m);
    } else {
      FollowNStays(g, id, m, n);
    }
  }

  /** `findCanonicalId`: follow first canonical links until none remains or one points back. */
  method FindCanonicalId(g: Graph, id: string) returns (current: string)
    requires Settles(g, id)
    ensures CanonicalOf(g, id, current)
    ensures Next(g, id).None? ==> current == id
  {
    ghost var n: nat :| Stops(g, FollowN(g, id, n));
    ghost var k: nat := 0;
    current := id;
    var nextNode := Next(g, current);
    while nextNode.Some? && nextNode.value != current
      invariant current == FollowN(g, id, k)
      invariant nextNode == Next(g, current)
      invariant k <= n
      invariant Next(g, id).None? ==> current == id
      decreases n - k
    {
      FollowNSnoc(g, id, k);
      current := nextNode.value;
      nextNode := Next(g, current);
      k := k + 1;
    }
  }

  // ---- The whole computation ----

  /** The tables built before the details are assembled. */
  datatype Tables = Tables(
    byId: map<string, NewSource>,
    generated: Graph,
    canonical: Graph,
    prettyPrinted: Graph,
    corresponding: map<string, seq<string>>)

  function Build(sources: seq<NewSource>): Result<Tables>
  {
    var byId := ById(sources);
    var generated := GeneratedGraph(sources);
    match LinkAll(generated, EmptyGraph, OfKind(sources, "inlineScript"))
    case Throws(e) => Throws(e)
    case Ok(c1) =>
      match LinkAll(generated, c1, OfKind(sources, "sourceMapped"))
      case Throws(e) => Throws(e)
      case Ok(c2) =>
        match CorrespondingOf(byId, sources)
        case Throws(e) => Throws(e)
        case Ok(m) =>
          var (pretty, c3) := PrettyLinks(EmptyGraph, c2, OfKind(sources, "prettyPrinted"));
          Ok(Tables(byId, generated, c3, pretty, m))
  }

  /** The details of `s`, given its canonical id. */
  function Expected(t: Tables, s: NewSource, canonicalId: string): SourceDetails
    requires FullKey(t.byId, s).Ok?
  {
    FullSourceDetails(Attributes(
      s.sourceId, s.kind, s.url, ContentHashFor(t.byId, s).value,
      Some(canonicalId),
      Some(Edges(t.corresponding, FullKey(t.byId, s).value)),
      Some(Edges(t.generated.outgoing, s.sourceId)),
      Some(Edges(t.generated.incoming, s.sourceId)),
      First(From(t.prettyPrinted, s.sourceId)),
      First(To(t.prettyPrinted, s.sourceId))))
  }

  ghost predicate CanonicalSettles(sources: seq<NewSource>)
  {
    Build(sources).Ok? ==> forall i :: 0 <= i < |sources| ==> Settles(Build(sources).value.canonical, sources[i].sourceId)
  }

  function Ids(sources: seq<NewSource>): set<string>
  {
    set s | s in sources :: s.sourceId
  }

  /** When the tables can be built, every source's key is readable. */
  lemma BuildKeys(sources: seq<NewSource>)
    requires Build(sources).Ok?
    ensures forall s :: s in sources ==> FullKey(Build(sources).value.byId, s).Ok?
  {
    CorrespondingMembers(ById(sources), sources);
  }

  /**
   * `newSourcesToCompleteSourceDetails`: one entry per source id, holding the
   * details of the last source with that id.
   */
  method NewSourcesToCompleteSourceDetails(sources: seq<NewSource>) returns (r: Result<map<string, SourceDetails>>)
    requires CanonicalSettles(sources)
    ensures r.Ok? <==> Build(sources).Ok?
    ensures r.Ok? ==> r.value.Keys == Ids(sources)
    ensures r.Ok? ==> Assembled(Build(sources).value, Build(sources).value.byId, r.value)
  {
    var byId := ById(sources);
    var generated := BuildGenerated(sources);
    var linked := Link(generated, EmptyGraph, OfKind(sources, "inlineScript"));
    if linked.Throws? {
      return Throws(linked.error);
    }
    linked := Link(generated, linked.value, OfKind(sources, "sourceMapped"));
    if linked.Throws? {
      return Throws(linked.error);
    }
    var corresponding := BuildCorresponding(byId, sources);
    if corresponding.Throws? {
      return Throws(corresponding.error);
    }
    var pretty, canonical := BuildPrettyLinks(linked.value, OfKind(sources, "prettyPrinted"));
    var t := Tables(byId, generated, canonical, pretty, corresponding.value);
    assert Build(sources) == Ok(t);
    BuildKeys(sources);
    var details := AssembleDetails(sources, t);
    assert Ids(sources) == byId.Keys;
    r := Ok(details);
  }

  /** The stored details of one id: those of `src`, with a canonical id the chain from `id` reaches. */
  ghost predicate Entry(t: Tables, src: NewSource, id: string, d: SourceDetails)
  {
    FullKey(t.byId, src).Ok? && d == Expected(t, src, d.canonicalId) && CanonicalOf(t.canonical, id, d.canonicalId)
  }

  ghost predicate Assembled(t: Tables, byId: map<string, NewSource>, out: map<string, SourceDetails>)
  {
    out.Keys == byId.Keys && forall id :: id in out ==> Entry(t, byId[id], id, out[id])
  }

  lemma AssembledStep(t: Tables, byId: map<string, NewSource>, out: map<string, SourceDetails>, s: NewSource, d: SourceDetails)
    requires Assembled(t, byId, out) && Entry(t, s, s.sourceId, d)
    ensures Assembled(t, byId[s.sourceId := s], out[s.sourceId := d])
  {
  }

  /** The last loop: each source's details stored under its id. */
  method AssembleDetails(sources: seq<NewSource>, t: Tables) returns (out: map<string, SourceDetails>)
    requires forall s :: s in sources ==> FullKey(t.byId, s).Ok?
    requires forall i :: 0 <= i < |sources| ==> Settles(t.canonical, sources[i].sourceId)
    requires t.byId == ById(sources)
    ensures Assembled(t, t.byId, out)
  {
    out := map[];
    for i := 0 to |sources|
      invariant Assembled(t, ById(sources[..i]), out)
    {
      var s := sources[i];
      assert sources[..i + 1][..i] == sources[..i];
      var canonicalId := FindCanonicalId(t.canonical, s.sourceId);
      assert s in sources;
      AssembledStep(t, ById(sources[..i]), out, s, Expected(t, s, canonicalId));
      out := out[s.sourceId := Expected(t, s, canonicalId)];
    }
    assert sources[..|sources|] == sources;
  }

  /**
   * A source is among its own corresponding sources, and the sources of one
   * "kind:url:contentHash" key list exactly the ids of that key's sources.
   */
  lemma ExpectedCorresponding(sources: seq<NewSource>, id: string, c: string)
    requires Build(sources).Ok? && id in Build(sources).value.byId
    ensures FullKey(Build(sources).value.byId, Build(sources).value.byId[id]).Ok?
    ensures id in Expected(Build(sources).value, Build(sources).value.byId[id], c).correspondingSourceIds
    ensures forall other :: other in Expected(Build(sources).value, Build(sources).value.byId[id], c).correspondingSourceIds <==>
      exists s :: s in sources && s.sourceId == other &&
        FullKey(Build(sources).value.byId, s) == FullKey(Build(sources).value.byId, Build(sources).value.byId[id])
  {
    var t := Build(sources).value;
    CorrespondingMembers(t.byId, sources);
    var s := t.byId[id];
    assert s in sources;
  }

  /** Sources sharing a key share their list of corresponding sources. */
  lemma CorrespondingShared(sources: seq<NewSource>, a: string, b: string, ca: string, cb: string)
    requires Build(sources).Ok? && a in Build(sources).value.byId && b in Build(sources).value.byId
    requires FullKey(Build(sources).value.byId, Build(sources).value.byId[a]) == FullKey(Build(sources).value.byId, Build(sources).value.byId[b])
    ensures FullKey(Build(sources).value.byId, Build(sources).value.byId[a]).Ok?
    ensures Expected(Build(sources).value, Build(sources).value.byId[a], ca).correspondingSourceIds ==
      Expected(Build(sources).value, Build(sources).value.byId[b], cb).correspondingSourceIds
  {
    BuildKeys(sources);
  }

  /** A pretty-printed source adds no generated edge of its own. */
  lemma PrettyPrintedNotGenerating(sources: seq<NewSource>, id: string)
    requires forall s :: s in sources && s.sourceId == id ==> s.kind == "prettyPrinted"
    ensures From(GeneratedGraph(sources), id).None?
  {
    GeneratedEdges(sources);
    GeneratedIdsOfPretty(sources, id);
  }

  lemma {:induction false} GeneratedIdsOfPretty(sources: seq<NewSource>, id: string)
    requires forall s :: s in sources && s.sourceId == id ==> s.kind == "prettyPrinted"
    ensures GeneratedIds(sources, id) == []
    decreases |sources|
  {
    if sources != [] {
      var init := sources[..|sources| - 1];
      assert forall s :: s in init ==> s in sources;
      assert sources[|sources| - 1] in sources;
      GeneratedIdsOfPretty(init, id);
    }
  }
}
