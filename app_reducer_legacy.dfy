// The older, untyped application slice: theme, split console, selected panel,
// tooltip and loading progress.

module LegacyAppReducer {
  import opened Basics
  import opened JsValues

  /** The user preferences the initial state reads. */
  datatype Prefs = Prefs(splitConsole: bool, selectedPanel: string)

  datatype AppState = AppState(theme: string, splitConsoleOpen: bool, selectedPanel: string, tooltip: Json, loading: int)

  datatype UIState = UIState(app: AppState)

  datatype AppAction =
    | UpdateTheme(theme: string)
    | SetSelectedPanel(panel: string)
    | SetSplitConsole(splitConsole: bool)
    | Loading(loading: int)
    /** An action of another slice, identified by its type. */
    | Other(actionType: string)

  function InitialAppState(prefs: Prefs): (s: AppState)
    ensures s.theme == "theme-light" && s.loading == 4 && s.tooltip == JNull
    ensures s.splitConsoleOpen == prefs.splitConsole && s.selectedPanel == prefs.selectedPanel
  {
    AppState("theme-light", prefs.splitConsole, prefs.selectedPanel, JNull, 4)
  }

  /** `update`: an absent state starts from the initial one. */
  function Update(state: Option<AppState>, prefs: Prefs, action: AppAction): (r: AppState)
    ensures r.tooltip == if state.Some? then state.value.tooltip else JNull
    ensures action.Other? ==> r == if state.Some? then state.value else InitialAppState(prefs)
  {
    var s := if state.Some? then state.value else InitialAppState(prefs);
    match action
    case UpdateTheme(t) => s.(theme := t)
    case SetSelectedPanel(p) => s.(selectedPanel := p)
    case SetSplitConsole(b) => s.(splitConsoleOpen := b)
    case Loading(n) => s.(loading := n)
    case Other(_) => s
  }

  function GetTheme(state: UIState): string { state.app.theme }
  function IsSplitConsoleOpen(state: UIState): bool { state.app.splitConsoleOpen }
  function GetSelectedPanel(state: UIState): string { state.app.selectedPanel }
  function GetLoading(state: UIState): int { state.app.loading }

  /**
   * Each action is seen by its own getter and by no other; the tooltip, which
   * no action sets, never changes.
   */
  lemma UpdateChangesOnlyItsField(s: AppState, prefs: Prefs, action: AppAction)
    ensures var u := UIState(Update(Some(s), prefs, action));
      var before := UIState(s);
      (GetTheme(u) == if action.UpdateTheme? then action.theme else GetTheme(before)) &&
      (GetSelectedPanel(u) == if action.SetSelectedPanel? then action.panel else GetSelectedPanel(before)) &&
      (IsSplitConsoleOpen(u) == if action.SetSplitConsole? then action.splitConsole else IsSplitConsoleOpen(before)) &&
      (GetLoading(u) == if action.Loading? then action.loading else GetLoading(before)) &&
      u.app.tooltip == s.tooltip
  {
  }

  /** An action of another slice returns the same state. */
  lemma UnknownActionKeepsState(s: AppState, prefs: Prefs, actionType: string)
    ensures Update(Some(s), prefs, Other(actionType)) == s
  {
  }

  /** Without a state, the first action applies to the initial state. */
  lemma FirstActionOnInitialState(prefs: Prefs, action: AppAction)
    ensures Update(None, prefs, action) == Update(Some(InitialAppState(prefs)), prefs, action)
    ensures GetLoading(UIState(Update(None, prefs, action))) == if action.Loading? then action.loading else 4
  {
  }
}
