// The renderer's application context: the preferences record fetched once at
// start-up, and the settings derived from it, each with its default when the
// record leaves it out.
module AppContext {
  import opened Common
  import opened Records

  datatype ContextState = ContextState(
    userPreferences: Option<Preferences>,
    isUserPrefsFetching: bool,
    theme: Theme,
    isFullscreen: bool,
    sideMenuCollapsed: bool,
    openBigPictureMode: bool,
    startOnWindowsBoot: bool,
    gameViewKind: ViewKind,
    showOnlyInstalledGamesAsDefault: bool,
    loginWithPin: bool)

  /** The provider's state before the record arrives. */
  const InitialContext := ContextState(None, true, System, false, false, false, false, CardView, false, false)

  /** `prefs.flag || false` */
  predicate FlagOrFalse(prefs: Preferences, k: PrefKey) {
    FlagSet(Some(prefs), k)
  }

  /**
   * The fetch settles: a stored record sets every derived setting (its own
   * value, or the default) and is kept; with no record nothing but the
   * fetching flag changes.
   */
  function Fetched(c: ContextState, stored: Option<Preferences>): (r: ContextState)
    ensures !r.isUserPrefsFetching
    ensures stored.None? ==> r == c.(isUserPrefsFetching := false)
  {
    match stored
    case None => c.(isUserPrefsFetching := false)
    case Some(p) =>
      c.(isFullscreen := FlagOrFalse(p, FullScreen),
         theme := ThemePref(stored).GetOr(System),
         sideMenuCollapsed := FlagOrFalse(p, SideMenuCollapsed),
         openBigPictureMode := FlagOrFalse(p, OpenBigpictureMode),
         startOnWindowsBoot := FlagOrFalse(p, StartOnWindowsBoot),
         gameViewKind := ViewPref(stored).GetOr(CardView),
         showOnlyInstalledGamesAsDefault := FlagOrFalse(p, ShowOnlyInstalledGamesAsDefault),
         loginWithPin := FlagOrFalse(p, LoginWithPin),
         userPreferences := stored,
         isUserPrefsFetching := false)
  }

  /** Each derived setting is the stored value when there is one, else its default. */
  lemma FetchedSettings(c: ContextState, p: Preferences)
    ensures var r := Fetched(c, Some(p));
      r.userPreferences == Some(p)
      && (r.theme == if ThemeKey in p && p[ThemeKey].ThemeValue? then p[ThemeKey].theme else System)
      && (r.gameViewKind == if GameViewKind in p && p[GameViewKind].ViewValue? then p[GameViewKind].view else CardView)
      && (r.loginWithPin <==> LoginWithPin in p && p[LoginWithPin] == BoolValue(true))
      && (r.openBigPictureMode <==> OpenBigpictureMode in p && p[OpenBigpictureMode] == BoolValue(true))
      && (r.isFullscreen <==> FullScreen in p && p[FullScreen] == BoolValue(true))
      && (r.sideMenuCollapsed <==> SideMenuCollapsed in p && p[SideMenuCollapsed] == BoolValue(true))
      && (r.startOnWindowsBoot <==> StartOnWindowsBoot in p && p[StartOnWindowsBoot] == BoolValue(true))
      && (r.showOnlyInstalledGamesAsDefault <==>
            ShowOnlyInstalledGamesAsDefault in p && p[ShowOnlyInstalledGamesAsDefault] == BoolValue(true))
  {
  }

  /** The defaults are the initial values: an empty record yields the settings of no record at all. */
  lemma EmptyRecordMeansDefaults()
    ensures Fetched(InitialContext, Some(map[])) ==
      Fetched(InitialContext, None).(userPreferences := Some(map[]))
  {
  }

  /** The context after the start-up effect. */
  class AppContextProvider {
    var userPreferences: Option<Preferences>
    var isUserPrefsFetching: bool
    var theme: Theme
    var isFullscreen: bool
    var sideMenuCollapsed: bool
    var openBigPictureMode: bool
    var startOnWindowsBoot: bool
    var gameViewKind: ViewKind
    var showOnlyInstalledGamesAsDefault: bool
    var loginWithPin: bool

    function State(): ContextState
      reads this
    {
      ContextState(userPreferences, isUserPrefsFetching, theme, isFullscreen, sideMenuCollapsed,
                   openBigPictureMode, startOnWindowsBoot, gameViewKind, showOnlyInstalledGamesAsDefault,
                   loginWithPin)
    }

    constructor ()
      ensures State() == InitialContext
    {
      userPreferences := None;
      isUserPrefsFetching := true;
      theme := System;
      isFullscreen := false;
      sideMenuCollapsed := false;
      openBigPictureMode := false;
      startOnWindowsBoot := false;
      gameViewKind := CardView;
      showOnlyInstalledGamesAsDefault := false;
      loginWithPin := false;
    }

    /** The `then` and `finally` of the fetch; a failed fetch is `None`. */
    method OnPreferencesFetched(stored: Option<Preferences>)
      modifies this
      ensures State() == Fetched(old(State()), stored)
    {
      if stored.Some? {
        var p := stored.value;
        isFullscreen := FlagOrFalse(p, FullScreen);
        theme := ThemePref(stored).GetOr(System);
        sideMenuCollapsed := FlagOrFalse(p, SideMenuCollapsed);
        openBigPictureMode := FlagOrFalse(p, OpenBigpictureMode);
        startOnWindowsBoot := FlagOrFalse(p, StartOnWindowsBoot);
        gameViewKind := ViewPref(stored).GetOr(CardView);
        showOnlyInstalledGamesAsDefault := FlagOrFalse(p, ShowOnlyInstalledGamesAsDefault);
        loginWithPin := FlagOrFalse(p, LoginWithPin);
        userPreferences := stored;
      }
      isUserPrefsFetching := false;
    }
  }
}
