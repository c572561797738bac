// The debugger's editor tabs reducer: the list of open tabs, each a URL and
// (once the source is known) a source id.  `isSimilarTab`, which compares a
// tab with a URL, is not part of this model and is a parameter; `""` stands
// for a missing URL or source id.

module Tabs {
  import opened Basics

  datatype Tab = Tab(url: string, sourceId: string)

  datatype Source = Source(id: string, url: string)

  datatype TabsAction =
    | AddTab(url: string, sourceId: string)
    | UpdateTab(url: string, sourceId: string)
    | MoveTab(url: string, tabIndex: nat)
    | MoveTabBySourceId(sourceId: string, tabIndex: nat)
    | CloseTab(source: Source)
    | CloseTabs(sources: seq<Source>)
    | AddSource(source: Source)
    | AddSources(sources: seq<Source>)
    | SetSelectedLocation(source: Source)
    | OtherAction(actionType: string)

  /** `updateTabList`: a tab for the URL is put first unless a similar tab is open (a tab without URL always is). */
  function UpdateTabList(tabs: seq<Tab>, url: string, sourceId: string, similar: (Tab, string) -> bool): (r: seq<Tab>)
    ensures (url == "" || forall i :: 0 <= i < |tabs| ==> !similar(tabs[i], url)) ==> r == [Tab(url, sourceId)] + tabs
    ensures url != "" && (exists i :: 0 <= i < |tabs| && similar(tabs[i], url)) ==> r == tabs
  {
    if url != "" && exists i :: 0 <= i < |tabs| && similar(tabs[i], url) then tabs
    else [Tab(url, sourceId)] + tabs
  }

  /** Opening the same URL twice opens one tab, when a tab is similar to its own URL. */
  lemma UpdateTabListIdempotent(tabs: seq<Tab>, url: string, sourceId: string, similar: (Tab, string) -> bool)
    requires url != "" && similar(Tab(url, sourceId), url)
    ensures UpdateTabList(UpdateTabList(tabs, url, sourceId, similar), url, sourceId, similar) == UpdateTabList(tabs, url, sourceId, similar)
  {
    var once := UpdateTabList(tabs, url, sourceId, similar);
    if once != tabs {
      assert once[0] == Tab(url, sourceId);
    }
  }

  predicate MatchesSource(tab: Tab, source: Source)
  {
    tab.sourceId == source.id || tab.url == source.url
  }

  /** `removeSourceFromTabList`: the tabs of other sources, in order, each as often as before. */
  function RemoveSource(tabs: seq<Tab>, source: Source): (r: seq<Tab>)
    ensures forall t :: t in r <==> t in tabs && !MatchesSource(t, source)
    ensures forall t :: multiset(r)[t] == if MatchesSource(t, source) then 0 else multiset(tabs)[t]
    ensures Subsequence(r, tabs)
  {
    if tabs == [] then []
    else
      var rest := RemoveSource(tabs[1..], source);
      assert tabs == [tabs[0]] + tabs[1..];
      if MatchesSource(tabs[0], source) then rest else [tabs[0]] + rest
  }

  /** `removeSourcesFromTabList`: the single-source removal folded over the sources. */
  function RemoveSources(tabs: seq<Tab>, sources: seq<Source>): seq<Tab>
    decreases |sources|
  {
    if sources == [] then tabs else RemoveSources(RemoveSource(tabs, sources[0]), sources[1..])
  }

  /** The tab matches none of the sources. */
  predicate KeptBy(t: Tab, sources: seq<Source>)
  {
    forall s :: s in sources ==> !MatchesSource(t, s)
  }

  /** Closing several sources keeps exactly the tabs that match none of them, in order and as often as before. */
  lemma {:induction false} RemoveSourcesKeeps(tabs: seq<Tab>, sources: seq<Source>)
    ensures forall t :: t in RemoveSources(tabs, sources) <==> t in tabs && KeptBy(t, sources)
    ensures forall t :: multiset(RemoveSources(tabs, sources))[t] == if KeptBy(t, sources) then multiset(tabs)[t] else 0
    ensures Subsequence(RemoveSources(tabs, sources), tabs)
    decreases |sources|
  {
    if sources == [] {
      SubsequenceReflexive(tabs);
    } else {
      var once := RemoveSource(tabs, sources[0]);
      RemoveSourcesKeeps(once, sources[1..]);
      SubsequenceTransitive(RemoveSources(once, sources[1..]), once, tabs);
      forall t
        ensures KeptBy(t, sources) <==> !MatchesSource(t, sources[0]) && KeptBy(t, sources[1..])
      {
        assert forall s :: s in sources <==> s == sources[0] || s in sources[1..];
      }
    }
  }

  /** `sources.find(src => src.url == url)`. */
  function FindByUrl(sources: seq<Source>, url: string): (r: Option<Source>)
    ensures r.Some? ==> r.value in sources && r.value.url == url
    ensures r.None? <==> forall s :: s in sources ==> s.url != url
  {
    if sources == [] then None
    else if sources[0].url == url then Some(sources[0])
    else FindByUrl(sources[1..], url)
  }

  /** The number of tabs that have a source id. */
  function SourceTabCount(tabs: seq<Tab>): (n: nat)
    ensures n <= |tabs|
    ensures n == |tabs| <==> forall i :: 0 <= i < |tabs| ==> tabs[i].sourceId != ""
  {
    if tabs == [] then 0
    else
      assert forall i :: 1 <= i < |tabs| ==> tabs[i] == tabs[1..][i - 1];
      (if tabs[0].sourceId != "" then 1 else 0) + SourceTabCount(tabs[1..])
  }

  /** The `map` step of `addVisibleTabs`: a tab takes the id of the first source with its URL. */
  function RecognisedTab(tab: Tab, sources: seq<Source>): (r: Tab)
    ensures r.url == tab.url
    ensures (forall s :: s in sources ==> s.url != tab.url) ==> r == tab
    ensures (exists s :: s in sources && s.url == tab.url) ==>
      exists k :: 0 <= k < |sources| && sources[k].url == tab.url && r.sourceId == sources[k].id &&
        forall j :: 0 <= j < k ==> sources[j].url != tab.url
  {
    match FindByUrl(sources, tab.url)
    case None => tab
    case Some(source) =>
      FindByUrlFirst(sources, tab.url);
      tab.(sourceId := source.id)
  }

  /** The source `find` returns is the first one with the URL. */
  lemma {:induction false} FindByUrlFirst(sources: seq<Source>, url: string)
    requires FindByUrl(sources, url).Some?
    ensures exists k :: (0 <= k < |sources| && sources[k] == FindByUrl(sources, url).value &&
      forall j :: 0 <= j < k ==> sources[j].url != url)
  {
    if sources[0].url != url {
      FindByUrlFirst(sources[1..], url);
      var k :| 0 <= k < |sources[1..]| && sources[1..][k] == FindByUrl(sources, url).value &&
        forall j :: 0 <= j < k ==> sources[1..][j].url != url;
      assert sources[k + 1] == sources[1..][k];
      forall j | 0 <= j < k + 1
        ensures sources[j].url != url
      {
        if j > 0 {
          assert sources[j] == sources[1..][j - 1];
        }
      }
    }
  }

  /** Every tab after the `map` step. */
  function RecognisedTabs(tabs: seq<Tab>, sources: seq<Source>): (r: seq<Tab>)
    ensures |r| == |tabs|
  {
    seq(|tabs|, i requires 0 <= i < |tabs| => RecognisedTab(tabs[i], sources))
  }

  lemma RecognisedTabsCons(tabs: seq<Tab>, sources: seq<Source>)
    requires tabs != []
    ensures RecognisedTabs(tabs, sources) == [RecognisedTab(tabs[0], sources)] + RecognisedTabs(tabs[1..], sources)
  {
    var r, rest := RecognisedTabs(tabs, sources), RecognisedTabs(tabs[1..], sources);
    assert forall i :: 1 <= i < |tabs| ==> r[i] == rest[i - 1];
  }

  /**
   * The tabs after the new sources are recognised: the `map` step followed by
   * the `filter` that drops the tabs still without an id, keeping the order
   * and the repetitions of the others.
   */
  function Recognise(tabs: seq<Tab>, sources: seq<Source>): (r: seq<Tab>)
    ensures |r| <= |tabs|
    ensures forall i :: 0 <= i < |r| ==> r[i].sourceId != ""
    ensures forall t :: multiset(r)[t] == if t.sourceId != "" then multiset(RecognisedTabs(tabs, sources))[t] else 0
    ensures Subsequence(r, RecognisedTabs(tabs, sources))
  {
    if tabs == [] then []
    else
      var tab := RecognisedTab(tabs[0], sources);
      var rest := Recognise(tabs[1..], sources);
      RecognisedTabsCons(tabs, sources);
      if tab.sourceId != "" then [tab] + rest else rest
  }

  /** `addVisibleTabs`: the state is kept as it is unless the number of tabs with an id changed. */
  function AddVisibleTabs(tabs: seq<Tab>, sources: seq<Source>): (r: seq<Tab>)
    ensures |Recognise(tabs, sources)| == SourceTabCount(tabs) ==> r == tabs
    ensures |Recognise(tabs, sources)| != SourceTabCount(tabs) ==>
      r == Recognise(tabs, sources) && forall i :: 0 <= i < |r| ==> r[i].sourceId != ""
  {
    var recognised := Recognise(tabs, sources);
    if |recognised| == SourceTabCount(tabs) then tabs else recognised
  }

  /** Sources that match no tab's URL leave the tabs exactly as they were. */
  lemma {:induction false} AddVisibleTabsUnmatched(tabs: seq<Tab>, sources: seq<Source>)
    requires forall i, s :: 0 <= i < |tabs| && s in sources ==> s.url != tabs[i].url
    ensures AddVisibleTabs(tabs, sources) == tabs
  {
    RecogniseUnmatchedCount(tabs, sources);
  }

  lemma {:induction false} RecogniseUnmatchedCount(tabs: seq<Tab>, sources: seq<Source>)
    requires forall i, s :: 0 <= i < |tabs| && s in sources ==> s.url != tabs[i].url
    ensures |Recognise(tabs, sources)| == SourceTabCount(tabs)
  {
    if tabs != [] {
      assert forall i :: 1 <= i < |tabs| ==> tabs[i] == tabs[1..][i - 1];
      RecogniseUnmatchedCount(tabs[1..], sources);
    }
  }

  /** `addSelectedSource`: nothing changes when a tab already has the source's id. */
  function AddSelectedSource(tabs: seq<Tab>, source: Source, similar: (Tab, string) -> bool): (r: seq<Tab>)
    ensures (exists i :: 0 <= i < |tabs| && tabs[i].sourceId != "" && tabs[i].sourceId == source.id) ==> r == tabs
    ensures !(exists i :: 0 <= i < |tabs| && tabs[i].sourceId != "" && tabs[i].sourceId == source.id) ==>
      r == UpdateTabList(tabs, source.url, source.id, similar)
  {
    if exists i :: 0 <= i < |tabs| && tabs[i].sourceId != "" && tabs[i].sourceId == source.id then tabs
    else UpdateTabList(tabs, source.url, source.id, similar)
  }

  /**
   * lodash-move's `move` (the package is not part of this model) for an index
   * that exists: the element is taken out and put back at `to`, or last when
   * `to` is past the end.
   */
  function Move(s: seq<Tab>, from: nat, to: nat): (r: seq<Tab>)
    requires from < |s|
    ensures |r| == |s| && multiset(r) == multiset(s)
    ensures r[if to < |s| then to else |s| - 1] == s[from]
  {
    var rest := s[..from] + s[from + 1..];
    assert s == s[..from] + [s[from]] + s[from + 1..];
    var at := if to < |rest| then to else |rest|;
    assert rest == rest[..at] + rest[at..];
    assert multiset(s) == multiset(s[..from]) + multiset{s[from]} + multiset(s[from + 1..]) by {
      assert s == s[..from] + [s[from]] + s[from + 1..];
    }
    assert multiset(rest) == multiset(s[..from]) + multiset(s[from + 1..]);
    assert multiset(rest) == multiset(rest[..at]) + multiset(rest[at..]) by {
      assert rest == rest[..at] + rest[at..];
    }
    var r := rest[..at] + [s[from]] + rest[at..];
    calc {
      multiset(r);
      multiset(rest[..at] + [s[from]]) + multiset(rest[at..]);
      multiset(rest[..at]) + multiset([s[from]]) + multiset(rest[at..]);
      multiset(rest) + multiset{s[from]};
      multiset(s);
    }
    r
  }

  /** `findIndex`: the first tab with the property. */
  function FindTabIndex(tabs: seq<Tab>, byUrl: bool, key: string): (r: Option<nat>)
    ensures r.Some? ==> r.value < |tabs| && (if byUrl then tabs[r.value].url else tabs[r.value].sourceId) == key
    ensures r.Some? ==> forall j :: 0 <= j < r.value ==> (if byUrl then tabs[j].url else tabs[j].sourceId) != key
    ensures r.None? ==> forall j :: 0 <= j < |tabs| ==> (if byUrl then tabs[j].url else tabs[j].sourceId) != key
  {
    if tabs == [] then None
    else if (if byUrl then tabs[0].url else tabs[0].sourceId) == key then Some(0)
    else match FindTabIndex(tabs[1..], byUrl, key)
      case None => None
      case Some(k) => Some(k + 1)
  }

  /**
   * `moveTabInList` (by URL) and `moveTabInListBySourceId`: the tab found is
   * moved to the new index; what lodash-move does with the index -1 of a tab
   * that is not found is not modelled (`None`).
   */
  function MoveTabInList(tabs: seq<Tab>, byUrl: bool, key: string, newIndex: nat): (r: Option<seq<Tab>>)
    ensures r.Some? <==> exists i :: 0 <= i < |tabs| && (if byUrl then tabs[i].url else tabs[i].sourceId) == key
    ensures r.Some? ==> |r.value| == |tabs| && multiset(r.value) == multiset(tabs)
  {
    match FindTabIndex(tabs, byUrl, key)
    case None => None
    case Some(i) => Some(Move(tabs, i, newIndex))
  }

  /** `update`: the tabs reducer; a moved tab that is not found leaves the tabs as they were. */
  function Update(tabs: seq<Tab>, action: TabsAction, similar: (Tab, string) -> bool): (r: seq<Tab>)
    ensures action.OtherAction? ==> r == tabs
    ensures action.CloseTab? ==> r == RemoveSource(tabs, action.source)
    ensures action.CloseTabs? ==> r == RemoveSources(tabs, action.sources)
    ensures action.AddSources? ==> r == AddVisibleTabs(tabs, action.sources)
    ensures action.MoveTab? || action.MoveTabBySourceId? ==> |r| == |tabs| && multiset(r) == multiset(tabs)
    ensures action.MoveTab? && FindTabIndex(tabs, true, action.url).Some? ==>
      r[if action.tabIndex < |tabs| then action.tabIndex else |tabs| - 1] == tabs[FindTabIndex(tabs, true, action.url).value]
    ensures action.MoveTabBySourceId? && FindTabIndex(tabs, false, action.sourceId).Some? ==>
      r[if action.tabIndex < |tabs| then action.tabIndex else |tabs| - 1] == tabs[FindTabIndex(tabs, false, action.sourceId).value]
  {
    match action
    case AddTab(url, sourceId) => UpdateTabList(tabs, url, sourceId, similar)
    case UpdateTab(url, sourceId) => UpdateTabList(tabs, url, sourceId, similar)
    case MoveTab(url, tabIndex) =>
      (match MoveTabInList(tabs, true, url, tabIndex) case Some(moved) => moved case None => tabs)
    case MoveTabBySourceId(sourceId, tabIndex) =>
      (match MoveTabInList(tabs, false, sourceId, tabIndex) case Some(moved) => moved case None => tabs)
    case CloseTab(source) => RemoveSource(tabs, source)
    case CloseTabs(sources) => RemoveSources(tabs, sources)
    case AddSource(source) => AddVisibleTabs(tabs, [source])
    case AddSources(sources) => AddVisibleTabs(tabs, sources)
    case SetSelectedLocation(source) => AddSelectedSource(tabs, source, similar)
    case OtherAction(_) => tabs
  }

  /** `tabExists`: some tab with a source id has this one. */
  function TabExists(tabs: seq<Tab>, sourceId: string): (r: bool)
    ensures r <==> exists i :: 0 <= i < |tabs| && tabs[i].sourceId != "" && tabs[i].sourceId == sourceId
    ensures sourceId == "" ==> !r
  {
    exists i :: 0 <= i < |tabs| && tabs[i].sourceId != "" && tabs[i].sourceId == sourceId
  }

  /** After a source is selected its tab exists, unless a similar tab was already open. */
  lemma SelectedSourceHasTab(tabs: seq<Tab>, source: Source, similar: (Tab, string) -> bool)
    requires source.id != ""
    requires source.url == "" || forall i :: 0 <= i < |tabs| ==> !similar(tabs[i], source.url)
    ensures TabExists(AddSelectedSource(tabs, source, similar), source.id)
  {
    var r := AddSelectedSource(tabs, source, similar);
    if r != tabs {
      assert r[0] == Tab(source.url, source.id);
    }
  }

  /**
   * The index of the tab to select when the selected one closed: the left
   * neighbour of its old position, the first tab when it was first or not
   * found, never past the last tab, and -1 when no tab is left.
   */
  function NewSelectedIndex(oldIndex: int, tabCount: nat): (r: int)
    ensures tabCount == 0 <==> r == -1
    ensures tabCount > 0 ==> 0 <= r < tabCount
    ensures tabCount > 0 && 1 <= oldIndex <= tabCount ==> r == oldIndex - 1
    ensures tabCount > 0 && oldIndex <= 1 ==> r == 0
    ensures tabCount > 0 && oldIndex > tabCount ==> r == tabCount - 1
  {
    var leftNeighbor := if oldIndex - 1 > 0 then oldIndex - 1 else 0;
    if leftNeighbor < tabCount - 1 then leftNeighbor else tabCount - 1
  }

  /** `tabUrls.indexOf(url)`. */
  function IndexOfUrl(tabs: seq<Tab>, url: string): (r: int)
    ensures -1 <= r < |tabs|
    ensures r >= 0 ==> tabs[r].url == url && forall j :: 0 <= j < r ==> tabs[j].url != url
    ensures r == -1 <==> forall j :: 0 <= j < |tabs| ==> tabs[j].url != url
  {
    if tabs == [] then -1
    else if tabs[0].url == url then 0
    else
      var k := IndexOfUrl(tabs[1..], url);
      if k == -1 then -1 else k + 1
  }

  /**
   * `getNewSelectedSourceId`.  The sources reducer's lookups are parameters:
   * `sourcesById` for `getSource`, `sourceByUrl` for `getSpecificSourceByURL`,
   * and `sourcesLoaded` for `state.sources.sources` being set.
   */
  function NewSelectedSourceId(selectedSourceId: Option<string>, availableTabs: seq<Tab>, tabList: seq<Tab>,
                               sourcesById: map<string, Source>, sourceByUrl: string -> Option<Source>, sourcesLoaded: bool,
                               similar: (Tab, string) -> bool): (r: string)
    ensures selectedSourceId.None? || selectedSourceId.value !in sourcesById ==> r == ""
    ensures |availableTabs| == 0 ==> r == ""
    ensures r != "" ==> exists url :: sourceByUrl(url).Some? && sourceByUrl(url).value.id == r
  {
    if selectedSourceId.None? || selectedSourceId.value !in sourcesById then ""
    else
      var selectedTab := sourcesById[selectedSourceId.value];
      if exists i :: 0 <= i < |availableTabs| && similar(availableTabs[i], selectedTab.url) then
        if !sourcesLoaded then ""
        else match sourceByUrl(selectedTab.url)
          case Some(s) => s.id
          case None => ""
      else
        var index := NewSelectedIndex(IndexOfUrl(tabList, selectedTab.url), |availableTabs|);
        if index == -1 then ""
        else match sourceByUrl(availableTabs[index].url)
          case Some(s) => s.id
          case None => ""
  }
}
