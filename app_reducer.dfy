// The application slice of the UI's store: the recording and session being
// viewed, the errors to show, the theme, the panel layout, the loading and
// upload progress and the open modal.  The reducer returns a copy of the state
// with the field an action names replaced.

module AppReducer {
  import opened Basics
  import opened JsValues

  datatype ExpectedError = ExpectedError(message: string, action: Option<string>, errorType: Option<string>)
  datatype UploadInfo = UploadInfo(amount: string, total: Option<string>)
  datatype ModalType = Sharing | Login | Settings

  /** The user preferences the initial state reads. */
  datatype Prefs = Prefs(isToolboxOpen: bool, splitConsole: bool, selectedPanel: string)

  datatype AppState = AppState(
    recordingId: Option<string>,
    expectedError: Option<ExpectedError>,
    unexpectedError: Option<Json>,
    theme: string,
    isToolboxOpen: bool,
    splitConsoleOpen: bool,
    selectedPanel: string,
    loading: int,
    uploading: Option<UploadInfo>,
    sessionId: Option<string>,
    modal: Option<ModalType>)

  datatype UIState = UIState(app: AppState)

  datatype AppAction =
    | SetupApp(recordingId: Option<string>)
    | SetUploading(uploading: Option<UploadInfo>)
    | SetExpectedError(expected: Option<ExpectedError>)
    | SetUnexpectedError(unexpected: Option<Json>)
    | UpdateTheme(theme: string)
    | SetSelectedPanel(panel: string)
    | SetSplitConsole(splitConsole: bool)
    | SetToolboxOpen(isToolboxOpen: bool)
    | Loading(loading: int)
    | SetSessionId(sessionId: Option<string>)
    | SetModal(modal: Option<ModalType>)
    /** An action of another slice, identified by its type. */
    | Other(actionType: string)

  function InitialAppState(prefs: Prefs): (s: AppState)
    ensures s.loading == 4 && s.theme == "theme-light"
    ensures s.recordingId.None? && s.sessionId.None? && s.expectedError.None? && s.unexpectedError.None?
    ensures s.uploading.None? && s.modal.None?
    ensures s.isToolboxOpen == prefs.isToolboxOpen && s.splitConsoleOpen == prefs.splitConsole
    ensures s.selectedPanel == prefs.selectedPanel
  {
    AppState(None, None, None, "theme-light", prefs.isToolboxOpen, prefs.splitConsole, prefs.selectedPanel,
      4, None, None, None)
  }

  /** `update`: an absent state starts from the initial one. */
  function Update(state: Option<AppState>, prefs: Prefs, action: AppAction): (r: AppState)
    ensures Affects(action).Some? ==> Select(UIState(r), Affects(action).value.0) == Affects(action).value.1
    ensures action.Other? ==> r == if state.Some? then state.value else InitialAppState(prefs)
  {
    var s := if state.Some? then state.value else InitialAppState(prefs);
    match action
    case SetupApp(id) => s.(recordingId := id)
    case SetUploading(u) => s.(uploading := u)
    case SetExpectedError(e) => s.(expectedError := e)
    case SetUnexpectedError(e) => s.(unexpectedError := e)
    case UpdateTheme(t) => s.(theme := t)
    case SetSelectedPanel(p) => s.(selectedPanel := p)
    case SetSplitConsole(b) => s.(splitConsoleOpen := b)
    case SetToolboxOpen(b) => s.(isToolboxOpen := b)
    case Loading(n) => s.(loading := n)
    case SetSessionId(id) => s.(sessionId := id)
    case SetModal(m) => s.(modal := m)
    case Other(_) => s
  }

  /** The selectors of the slice. */
  datatype Selector =
    | GetTheme | IsSplitConsoleOpen | IsToolboxOpen | GetSelectedPanel | GetLoading | GetUploading
    | GetRecordingId | GetSessionId | GetExpectedError | GetUnexpectedError | GetModal

  /** What a selector returns. */
  datatype Selected =
    | Text(s: string)
    | Flag(b: bool)
    | Number(n: int)
    | Id(id: Option<string>)
    | Upload(u: Option<UploadInfo>)
    | Expected(e: Option<ExpectedError>)
    | Unexpected(j: Option<Json>)
    | Modal(m: Option<ModalType>)

  function Select(state: UIState, selector: Selector): Selected
  {
    var app := state.app;
    match selector
    case GetTheme => Text(app.theme)
    case IsSplitConsoleOpen => Flag(app.splitConsoleOpen)
    case IsToolboxOpen => Flag(app.isToolboxOpen)
    case GetSelectedPanel => Text(app.selectedPanel)
    case GetLoading => Number(app.loading)
    case GetUploading => Upload(app.uploading)
    case GetRecordingId => Id(app.recordingId)
    case GetSessionId => Id(app.sessionId)
    case GetExpectedError => Expected(app.expectedError)
    case GetUnexpectedError => Unexpected(app.unexpectedError)
    case GetModal => Modal(app.modal)
  }

  /** The selector that reads the field an action sets, with the value it sets; none for other actions. */
  function Affects(action: AppAction): Option<(Selector, Selected)>
  {
    match action
    case SetupApp(id) => Some((GetRecordingId, Id(id)))
    case SetUploading(u) => Some((GetUploading, Upload(u)))
    case SetExpectedError(e) => Some((GetExpectedError, Expected(e)))
    case SetUnexpectedError(e) => Some((GetUnexpectedError, Unexpected(e)))
    case UpdateTheme(t) => Some((GetTheme, Text(t)))
    case SetSelectedPanel(p) => Some((GetSelectedPanel, Text(p)))
    case SetSplitConsole(b) => Some((IsSplitConsoleOpen, Flag(b)))
    case SetToolboxOpen(b) => Some((IsToolboxOpen, Flag(b)))
    case Loading(n) => Some((GetLoading, Number(n)))
    case SetSessionId(id) => Some((GetSessionId, Id(id)))
    case SetModal(m) => Some((GetModal, Modal(m)))
    case Other(_) => None
  }

  /** The selectors see a state exactly: two states no selector tells apart are equal. */
  lemma SelectorsDetermineState(a: AppState, b: AppState)
    requires forall g :: Select(UIState(a), g) == Select(UIState(b), g)
    ensures a == b
  {
    assert Select(UIState(a), GetTheme) == Select(UIState(b), GetTheme);
    assert Select(UIState(a), IsSplitConsoleOpen) == Select(UIState(b), IsSplitConsoleOpen);
    assert Select(UIState(a), IsToolboxOpen) == Select(UIState(b), IsToolboxOpen);
    assert Select(UIState(a), GetSelectedPanel) == Select(UIState(b), GetSelectedPanel);
    assert Select(UIState(a), GetLoading) == Select(UIState(b), GetLoading);
    assert Select(UIState(a), GetUploading) == Select(UIState(b), GetUploading);
    assert Select(UIState(a), GetRecordingId) == Select(UIState(b), GetRecordingId);
    assert Select(UIState(a), GetSessionId) == Select(UIState(b), GetSessionId);
    assert Select(UIState(a), GetExpectedError) == Select(UIState(b), GetExpectedError);
    assert Select(UIState(a), GetUnexpectedError) == Select(UIState(b), GetUnexpectedError);
    assert Select(UIState(a), GetModal) == Select(UIState(b), GetModal);
  }

  /**
   * Each recognised action sets the value its selector reads and leaves every
   * other selector's value as it was.
   */
  lemma UpdateChangesOnlyItsField(s: AppState, prefs: Prefs, action: AppAction, g: Selector)
    ensures Affects(action).Some? && g == Affects(action).value.0 ==>
      Select(UIState(Update(Some(s), prefs, action)), g) == Affects(action).value.1
    ensures Affects(action).None? || g != Affects(action).value.0 ==>
      Select(UIState(Update(Some(s), prefs, action)), g) == Select(UIState(s), g)
  {
  }

  /** An action of another slice returns the same state. */
  lemma UnknownActionKeepsState(s: AppState, prefs: Prefs, actionType: string)
    ensures Update(Some(s), prefs, Other(actionType)) == s
  {
  }

  /** Repeating an action changes nothing more. */
  lemma UpdateIdempotent(s: AppState, prefs: Prefs, action: AppAction)
    ensures Update(Some(Update(Some(s), prefs, action)), prefs, action) == Update(Some(s), prefs, action)
  {
  }

  /** Actions that set different fields commute. */
  lemma UpdatesCommute(s: AppState, prefs: Prefs, a: AppAction, b: AppAction)
    requires Affects(a).Some? && Affects(b).Some? && Affects(a).value.0 != Affects(b).value.0
    ensures Update(Some(Update(Some(s), prefs, a)), prefs, b) == Update(Some(Update(Some(s), prefs, b)), prefs, a)
  {
    var sa, sb := Update(Some(s), prefs, a), Update(Some(s), prefs, b);
    var x, y := Update(Some(sa), prefs, b), Update(Some(sb), prefs, a);
    var ga, va, gb, vb := Affects(a).value.0, Affects(a).value.1, Affects(b).value.0, Affects(b).value.1;
    forall g ensures Select(UIState(sa), g) == (if g == ga then va else Select(UIState(s), g)) {
      UpdateChangesOnlyItsField(s, prefs, a, g);
    }
    forall g ensures Select(UIState(sb), g) == (if g == gb then vb else Select(UIState(s), g)) {
      UpdateChangesOnlyItsField(s, prefs, b, g);
    }
    forall g ensures Select(UIState(x), g) == (if g == gb then vb else Select(UIState(sa), g)) {
      UpdateChangesOnlyItsField(sa, prefs, b, g);
    }
    forall g ensures Select(UIState(y), g) == (if g == ga then va else Select(UIState(sb), g)) {
      UpdateChangesOnlyItsField(sb, prefs, a, g);
    }
    SetsCommute(s, sa, sb, x, y, ga, va, gb, vb);
  }

  /** Two states that each set two different selectors' values of `s`, in either order, are equal. */
  lemma SetsCommute(s: AppState, sa: AppState, sb: AppState, x: AppState, y: AppState,
                    ga: Selector, va: Selected, gb: Selector, vb: Selected)
    requires ga != gb
    requires forall g :: Select(UIState(sa), g) == (if g == ga then va else Select(UIState(s), g))
    requires forall g :: Select(UIState(sb), g) == (if g == gb then vb else Select(UIState(s), g))
    requires forall g :: Select(UIState(x), g) == (if g == gb then vb else Select(UIState(sa), g))
    requires forall g :: Select(UIState(y), g) == (if g == ga then va else Select(UIState(sb), g))
    ensures x == y
  {
    forall g
      ensures Select(UIState(x), g) == Select(UIState(y), g)
    {
      assert Select(UIState(sa), g) == (if g == ga then va else Select(UIState(s), g));
      assert Select(UIState(sb), g) == (if g == gb then vb else Select(UIState(s), g));
    }
    SelectorsDetermineState(x, y);
  }
}
