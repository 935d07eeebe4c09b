// The records the launcher persists: games, game collections and the user's
// preferences, as they are kept in the application's key-value document.
module Records {
  import opened Common

  /**
   * A point in time as the store keeps it: electron-store persists a `Date`
   * as its JSON text, so the model carries that text.
   */
  type Timestamp = string

  datatype Game = Game(
    id: string,
    name: string,
    exePath: Option<string>,
    isInstalled: bool,
    createdAt: Timestamp,
    lastPlayed: Timestamp,
    playCount: int,
    iconPath: Option<string>,
    cardIconPath: Option<string>,
    collectionIds: seq<string>)

  datatype Collection = Collection(id: string, name: string, gameIds: seq<string>)

  /** Electron's `Rectangle`, the saved window bounds. */
  datatype Rect = Rect(x: int, y: int, width: int, height: int)

  datatype Theme = Light | Dark | System

  datatype ViewKind = ListView | IconView | CardView

  function ThemeName(t: Theme): string {
    match t
    case Light => "light"
    case Dark => "dark"
    case System => "system"
  }

  function ViewKindName(v: ViewKind): string {
    match v
    case ListView => "list"
    case IconView => "icon"
    case CardView => "card"
  }

  // ---------------------------------------------------------------------
  // Preferences: a record of optional keys, shallow-merged on every write

  datatype PrefKey =
    | WindowBounds
    | FullScreen
    | Maximized
    | LoginWithPin
    | PinCode
    | SideMenuCollapsed
    | ThemeKey
    | ShowOnlyInstalledGamesAsDefault
    | GameViewKind
    | OpenBigpictureMode
    | StartOnWindowsBoot

  /** The property name of each key in the persisted document. */
  function KeyName(k: PrefKey): string {
    match k
    case WindowBounds => "windowBounds"
    case FullScreen => "fullScreen"
    case Maximized => "maximized"
    case LoginWithPin => "loginWithPin"
    case PinCode => "pinCode"
    case SideMenuCollapsed => "sideMenuCollapsed"
    case ThemeKey => "theme"
    case ShowOnlyInstalledGamesAsDefault => "showOnlyInstalledGamesAsDefault"
    case GameViewKind => "gameViewKind"
    case OpenBigpictureMode => "openBigpictureMode"
    case StartOnWindowsBoot => "startOnWindowsBoot"
  }

  /** The key a property name stands for, if any. */
  function KeyOf(name: string): Option<PrefKey> {
    if name == "windowBounds" then Some(WindowBounds)
    else if name == "fullScreen" then Some(FullScreen)
    else if name == "maximized" then Some(Maximized)
    else if name == "loginWithPin" then Some(LoginWithPin)
    else if name == "pinCode" then Some(PinCode)
    else if name == "sideMenuCollapsed" then Some(SideMenuCollapsed)
    else if name == "theme" then Some(ThemeKey)
    else if name == "showOnlyInstalledGamesAsDefault" then Some(ShowOnlyInstalledGamesAsDefault)
    else if name == "gameViewKind" then Some(GameViewKind)
    else if name == "openBigpictureMode" then Some(OpenBigpictureMode)
    else if name == "startOnWindowsBoot" then Some(StartOnWindowsBoot)
    else None
  }

  /** `KeyOf` and `KeyName` are inverse to each other. */
  lemma KeyOfKeyName(k: PrefKey, name: string)
    ensures KeyOf(KeyName(k)) == Some(k)
    ensures KeyOf(name) == Some(k) ==> KeyName(k) == name
  {
    KeyOfEachName(k);
    if KeyOf(name) == Some(k) {
      NameOfEachKey(name);
    }
  }

  lemma KeyOfEachName(k: PrefKey)
    ensures KeyOf(KeyName(k)) == Some(k)
  {
    match k
    case WindowBounds =>
    case FullScreen =>
    case Maximized =>
    case LoginWithPin =>
    case PinCode =>
    case SideMenuCollapsed =>
    case ThemeKey =>
    case ShowOnlyInstalledGamesAsDefault =>
    case GameViewKind =>
    case OpenBigpictureMode =>
    case StartOnWindowsBoot =>
  }

  lemma KeyNamesReadBack()
    ensures forall k: PrefKey :: KeyOf(KeyName(k)) == Some(k)
  {
    forall k: PrefKey {
      KeyOfEachName(k);
    }
  }

  lemma NameOfEachKey(name: string)
    ensures KeyOf(name).Some? ==> KeyName(KeyOf(name).value) == name
  {
    if name == "windowBounds" {
    } else if name == "fullScreen" {
    } else if name == "maximized" {
    } else if name == "loginWithPin" {
    } else if name == "pinCode" {
    } else if name == "sideMenuCollapsed" {
    } else if name == "theme" {
    } else if name == "showOnlyInstalledGamesAsDefault" {
    } else if name == "gameViewKind" {
    } else if name == "openBigpictureMode" {
    } else if name == "startOnWindowsBoot" {
    }
  }

  /** A stored preference value; `NullValue` is JSON `null`, admitted for the nullable keys. */
  datatype PrefValue =
    | NullValue
    | BoolValue(b: bool)
    | TextValue(text: string)
    | ThemeValue(theme: Theme)
    | ViewValue(view: ViewKind)
    | BoundsValue(rect: Rect)

  /** The stored preferences: each present key with its value. */
  type Preferences = map<PrefKey, PrefValue>

  /**
   * The argument of a preferences write. A key maps to `None` when the
   * caller's object holds the key with the value `undefined`.
   */
  type PreferencesPatch = map<PrefKey, Option<PrefValue>>

  /** `v` has the kind the document allows under key `k`. */
  predicate Fits(k: PrefKey, v: PrefValue) {
    match k
    case WindowBounds => v.BoundsValue?
    case PinCode => v.TextValue? || v.NullValue?
    case ThemeKey => v.ThemeValue?
    case GameViewKind => v.ViewValue?
    case _ => v.BoolValue? || v.NullValue?
  }

  predicate WellTyped(p: Preferences) {
    forall k | k in p :: Fits(k, p[k])
  }

  predicate PatchWellTyped(p: PreferencesPatch) {
    forall k | k in p && p[k].Some? :: Fits(k, p[k].value)
  }

  /** JavaScript truthiness of `prefs?.key` for a boolean key. */
  predicate FlagSet(prefs: Option<Preferences>, k: PrefKey) {
    prefs.Some? && k in prefs.value && prefs.value[k] == BoolValue(true)
  }

  /** `prefs?.key` for a boolean key, with `null` and a missing key read as missing. */
  function BoolPref(prefs: Option<Preferences>, k: PrefKey): Option<bool> {
    if prefs.Some? && k in prefs.value && prefs.value[k].BoolValue? then Some(prefs.value[k].b) else None
  }

  /** `prefs?.pinCode`, with `null` read as missing. */
  function PinCodeOf(prefs: Option<Preferences>): Option<string> {
    if prefs.Some? && PinCode in prefs.value && prefs.value[PinCode].TextValue?
    then Some(prefs.value[PinCode].text) else None
  }

  /** JavaScript truthiness of an optional string: present and non-empty. */
  predicate TextSet(s: Option<string>) {
    s.Some? && s.value != ""
  }

  function ThemePref(prefs: Option<Preferences>): Option<Theme> {
    if prefs.Some? && ThemeKey in prefs.value && prefs.value[ThemeKey].ThemeValue?
    then Some(prefs.value[ThemeKey].theme) else None
  }

  function ViewPref(prefs: Option<Preferences>): Option<ViewKind> {
    if prefs.Some? && GameViewKind in prefs.value && prefs.value[GameViewKind].ViewValue?
    then Some(prefs.value[GameViewKind].view) else None
  }
}
