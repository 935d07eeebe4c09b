// Where the app goes after start-up: the PIN screen when a PIN login is set
// up, otherwise straight to big picture or, after the splash, to home.
module Login {
  import opened Common
  import opened Records
  import opened AppContext

  datatype Route = BigPictureRoute | HomeRoute

  /** What the start-up effect does once it runs. */
  datatype LoginStep =
    | KeepLoading              // the preferences are still being fetched
    | SplashThenPin            // splash, then the PIN boxes
    | Navigate(route: Route)   // at once (big picture) or after the splash (home)

  /** A PIN login is set up: the stored record asks for it and holds a non-empty PIN. */
  predicate PinLoginSetUp(prefs: Option<Preferences>) {
    FlagSet(prefs, LoginWithPin) && TextSet(PinCodeOf(prefs))
  }

  /** `handleLogin` and the no-PIN branch: the route follows the big-picture setting. */
  function Destination(openBigPictureMode: bool): (r: Route)
    ensures r == BigPictureRoute <==> openBigPictureMode
  {
    if openBigPictureMode then BigPictureRoute else HomeRoute
  }

  /** The start-up decision on the context. */
  function OnStartup(c: ContextState): (r: LoginStep)
    ensures c.isUserPrefsFetching <==> r == KeepLoading
    ensures !c.isUserPrefsFetching ==> (r == SplashThenPin <==> PinLoginSetUp(c.userPreferences))
    ensures !c.isUserPrefsFetching && !PinLoginSetUp(c.userPreferences) ==>
      r == Navigate(Destination(c.openBigPictureMode))
  {
    if c.isUserPrefsFetching then KeepLoading
    else if PinLoginSetUp(c.userPreferences) then SplashThenPin
    else Navigate(Destination(c.openBigPictureMode))
  }

  /**
   * Once the fetch has settled, the PIN screen comes exactly when the stored
   * record sets up a PIN login, and otherwise the stored big-picture flag
   * decides where the app opens.
   */
  lemma StartupFollowsStoredRecord(stored: Option<Preferences>)
    ensures var step := OnStartup(Fetched(InitialContext, stored));
      step != KeepLoading
      && (step == SplashThenPin <==> PinLoginSetUp(stored))
      && (!PinLoginSetUp(stored) ==>
            step == Navigate(if FlagSet(stored, OpenBigpictureMode) then BigPictureRoute else HomeRoute))
  {
  }

  /** A PIN without the login flag, or the flag without a PIN, opens the app without asking. */
  lemma HalfSetUpPinIsSkipped(p: Preferences)
    requires LoginWithPin !in p || PinCode !in p || p[PinCode] == TextValue("")
    ensures OnStartup(Fetched(InitialContext, Some(p))).Navigate?
  {
  }
}
