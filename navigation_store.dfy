/**
 * The page-history store (src/state/navigationStore.ts): the current page, a
 * stack of visited pages whose top is the current page, and the last focused
 * focus key remembered for each page.
 */
module Navigation {
  import FocusKeys

  datatype Page = Home | Detail | Player | Search | Settings | Movies | Series | Live

  /** The focus key each page starts with in `lastFocusedKeys`. */
  function DefaultFocusKey(page: Page): string {
    match page
    case Home => FocusKeys.FocusKey(FocusKeys.ContentGrid)
    case Detail => FocusKeys.FocusKey(FocusKeys.DetailActions)
    case Player => FocusKeys.FocusKey(FocusKeys.PlayerControls)
    case Search => FocusKeys.FocusKey(FocusKeys.Search)
    case Settings => FocusKeys.FocusKey(FocusKeys.Settings)
    case Movies => FocusKeys.FocusKey(FocusKeys.ContentGrid)
    case Series => FocusKeys.FocusKey(FocusKeys.ContentGrid)
    case Live => FocusKeys.FocusKey(FocusKeys.ContentGrid)
  }

  /** A snapshot of the store's data fields. */
  datatype NavState = NavState(
    currentPage: Page,
    history: seq<Page>,
    lastFocusedKeys: map<Page, string>,
    focusKey: string)

  /**
   * The store's invariant: the history is never empty, its last entry is the
   * current page, and every page has a remembered focus key.
   */
  predicate ValidState(s: NavState) {
    && |s.history| > 0
    && s.currentPage == s.history[|s.history| - 1]
    && forall page: Page :: page in s.lastFocusedKeys
  }

  function InitialFocusKeys(): map<Page, string> {
    map[Home := DefaultFocusKey(Home), Detail := DefaultFocusKey(Detail),
        Player := DefaultFocusKey(Player), Search := DefaultFocusKey(Search),
        Settings := DefaultFocusKey(Settings), Movies := DefaultFocusKey(Movies),
        Series := DefaultFocusKey(Series), Live := DefaultFocusKey(Live)]
  }

  /** The initial focus-key map covers every page with its default key. */
  lemma InitialFocusKeysTotal()
    ensures forall page: Page :: page in InitialFocusKeys() && InitialFocusKeys()[page] == DefaultFocusKey(page)
  {
    forall page: Page
      ensures page in InitialFocusKeys() && InitialFocusKeys()[page] == DefaultFocusKey(page)
    {
      match page
      case Home =>
      case Detail =>
      case Player =>
      case Search =>
      case Settings =>
      case Movies =>
      case Series =>
      case Live =>
    }
  }

  /** The state the store is created with: only the home page has been visited. */
  function InitialState(): (s: NavState)
    ensures ValidState(s)
    ensures s.currentPage == Home && s.history == [Home]
    ensures forall page: Page :: s.lastFocusedKeys[page] == DefaultFocusKey(page)
    ensures s.focusKey == FocusKeys.FocusKey(FocusKeys.App)
  {
    InitialFocusKeysTotal();
    NavState(Home, [Home], InitialFocusKeys(), FocusKeys.FocusKey(FocusKeys.App))
  }

  /**
   * `navigateTo(page)`: push `page` (even when it is already the current page)
   * and make it current; the focus-key memory is not touched.
   */
  function AfterNavigateTo(s: NavState, page: Page): (t: NavState)
    ensures ValidState(s) ==> ValidState(t)
    ensures |t.history| == |s.history| + 1
    ensures t.history[..|s.history|] == s.history && t.history[|s.history|] == page
    ensures t.currentPage == page
    ensures t.lastFocusedKeys == s.lastFocusedKeys && t.focusKey == s.focusKey
  {
    s.(currentPage := page, history := s.history + [page])
  }

  /**
   * `navigateBack()`: with at most one history entry nothing changes; otherwise
   * the last entry is dropped and the new last entry becomes the current page.
   */
  function AfterNavigateBack(s: NavState): (t: NavState)
    ensures ValidState(s) ==> ValidState(t)
    ensures |s.history| <= 1 ==> t == s
    ensures |s.history| > 1 ==> t.history + [s.history[|s.history| - 1]] == s.history
    ensures |s.history| > 1 ==> t.currentPage == t.history[|t.history| - 1]
    ensures t.lastFocusedKeys == s.lastFocusedKeys && t.focusKey == s.focusKey
  {
    if |s.history| <= 1 then s
    else
      var newHistory := s.history[..|s.history| - 1];
      s.(currentPage := newHistory[|newHistory| - 1], history := newHistory)
  }

  /** `setLastFocusedKey(page, key)`: only the entry for `page` changes. */
  function AfterSetLastFocusedKey(s: NavState, page: Page, key: string): (t: NavState)
    ensures ValidState(s) ==> ValidState(t)
    ensures page in t.lastFocusedKeys && t.lastFocusedKeys[page] == key
    ensures forall other :: other != page ==>
              (other in t.lastFocusedKeys <==> other in s.lastFocusedKeys) &&
              (other in s.lastFocusedKeys ==> t.lastFocusedKeys[other] == s.lastFocusedKeys[other])
    ensures t.currentPage == s.currentPage && t.history == s.history && t.focusKey == s.focusKey
  {
    s.(lastFocusedKeys := s.lastFocusedKeys[page := key])
  }

  /** The three actions of the store, for reasoning about sequences of them. */
  datatype Action = NavigateTo(page: Page) | NavigateBack | SetLastFocusedKey(page: Page, key: string)

  function Step(s: NavState, a: Action): NavState {
    match a
    case NavigateTo(page) => AfterNavigateTo(s, page)
    case NavigateBack => AfterNavigateBack(s)
    case SetLastFocusedKey(page, key) => AfterSetLastFocusedKey(s, page, key)
  }

  /** The state after performing `actions` in order, starting from `s`. */
  function Run(s: NavState, actions: seq<Action>): NavState
    decreases |actions|
  {
    if actions == [] then s else Run(Step(s, actions[0]), actions[1..])
  }

  /** Any sequence of actions keeps the history non-empty with the current page on top. */
  lemma {:induction false} RunPreservesValid(s: NavState, actions: seq<Action>)
    requires ValidState(s)
    ensures ValidState(Run(s, actions))
    decreases |actions|
  {
    if actions != [] {
      RunPreservesValid(Step(s, actions[0]), actions[1..]);
    }
  }

  /** In particular every state reachable from the initial one satisfies the invariant. */
  lemma ReachableStatesValid(actions: seq<Action>)
    ensures ValidState(Run(InitialState(), actions))
  {
    RunPreservesValid(InitialState(), actions);
  }

  /** The root page is never popped: the first history entry survives every sequence of actions. */
  lemma {:induction false} RunKeepsRoot(s: NavState, actions: seq<Action>)
    requires |s.history| > 0
    ensures |Run(s, actions).history| > 0
    ensures Run(s, actions).history[0] == s.history[0]
    decreases |actions|
  {
    if actions != [] {
      RunKeepsRoot(Step(s, actions[0]), actions[1..]);
    }
  }

  predicate IsNavigation(a: Action) {
    a.NavigateTo? || a.NavigateBack?
  }

  /** Navigation alone never changes the remembered focus keys. */
  lemma {:induction false} NavigationKeepsFocusKeys(s: NavState, actions: seq<Action>)
    requires forall k :: 0 <= k < |actions| ==> IsNavigation(actions[k])
    ensures Run(s, actions).lastFocusedKeys == s.lastFocusedKeys
    decreases |actions|
  {
    if actions != [] {
      NavigationKeepsFocusKeys(Step(s, actions[0]), actions[1..]);
    }
  }

  /** Going to a page and then back restores the previous state exactly. */
  lemma NavigateToThenBack(s: NavState, page: Page)
    requires ValidState(s)
    ensures AfterNavigateBack(AfterNavigateTo(s, page)) == s
  {
    assert (s.history + [page])[..|s.history|] == s.history;
  }

  /** Going back from the initial state changes nothing. */
  lemma BackAtRootIsNoOp()
    ensures AfterNavigateBack(InitialState()) == InitialState()
  {
  }

  /** The store object; each action replaces some of its fields. */
  class NavigationStore {
    var currentPage: Page
    var history: seq<Page>
    var lastFocusedKeys: map<Page, string>
    var focusKey: string

    function State(): NavState
      reads this
    {
      NavState(currentPage, history, lastFocusedKeys, focusKey)
    }

    predicate Valid()
      reads this
    {
      ValidState(State())
    }

    constructor ()
      ensures State() == InitialState() && Valid()
    {
      currentPage := Home;
      history := [Home];
      lastFocusedKeys := InitialFocusKeys();
      InitialFocusKeysTotal();
      focusKey := FocusKeys.FocusKey(FocusKeys.App);
    }

    method NavigateTo(page: Page)
      modifies this
      ensures State() == AfterNavigateTo(old(State()), page)
      ensures old(Valid()) ==> Valid()
    {
      var newHistory := history + [page];
      currentPage := page;
      history := newHistory;
    }

    method NavigateBack()
      modifies this
      ensures State() == AfterNavigateBack(old(State()))
      ensures old(Valid()) ==> Valid()
    {
      if |history| <= 1 {
        return;
      }
      var newHistory := history[..|history| - 1];
      var previousPage := newHistory[|newHistory| - 1];
      currentPage := previousPage;
      history := newHistory;
    }

    method SetLastFocusedKey(page: Page, key: string)
      modifies this
      ensures State() == AfterSetLastFocusedKey(old(State()), page, key)
      ensures old(Valid()) ==> Valid()
    {
      lastFocusedKeys := lastFocusedKeys[page := key];
    }
  }
}
