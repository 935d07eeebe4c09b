// How the store document is written out (`store.store`, serialized into a
// backup) and read back from a document the schema admits.
module StoreCodec {
  import opened Common
  import opened Json
  import opened Records
  import opened RecordStore
  import opened StoreSchema

  // ---------------------------------------------------------------------
  // Lists of ids

  function EncodeTextList(ids: seq<string>): (j: Json)
    ensures IsTextList(j)
  {
    JArray(seq(|ids|, i requires 0 <= i < |ids| => JString(ids[i])))
  }

  function DecodeTextList(j: Json): seq<string>
    requires IsTextList(j)
  {
    seq(|j.items|, i requires 0 <= i < |j.items| => j.items[i].s)
  }

  lemma TextListRoundTrip(ids: seq<string>)
    ensures DecodeTextList(EncodeTextList(ids)) == ids
  {
  }

  // ---------------------------------------------------------------------
  // Games and collections

  /** A string property that may be missing or `null`. */
  function DecodeOptionalText(fields: map<string, Json>, name: string): Option<string> {
    if name in fields && fields[name].JString? then Some(fields[name].s) else None
  }

  /** The game has a value under property `n`: always for the required ones, when present for the optional ones. */
  predicate GameHas(g: Game, n: string) {
    n in GameRequiredNames
    || (n == "exePath" && g.exePath.Some?)
    || (n == "iconPath" && g.iconPath.Some?)
    || (n == "cardIconPath" && g.cardIconPath.Some?)
  }

  function GameField(g: Game, n: string): Json {
    if n == "id" then JString(g.id)
    else if n == "name" then JString(g.name)
    else if n == "isInstalled" then JBool(g.isInstalled)
    else if n == "createdAt" then JString(g.createdAt)
    else if n == "lastPlayed" then JString(g.lastPlayed)
    else if n == "playCount" then JNumber(g.playCount)
    else if n == "collectionIds" then EncodeTextList(g.collectionIds)
    else if n == "exePath" then JString(g.exePath.GetOr(""))
    else if n == "iconPath" then JString(g.iconPath.GetOr(""))
    else JString(g.cardIconPath.GetOr(""))
  }

  /** A game as a JSON object; a missing optional path is left out, as `JSON.stringify` drops `undefined`. */
  function EncodeGame(g: Game): Json {
    JObject(map n | n in GameRequiredNames + GameOptionalNames && GameHas(g, n) :: GameField(g, n))
  }

  function DecodeGame(j: Json): Game
    requires IsGameJson(j)
  {
    var f := j.fields;
    assert IsGameFieldJson("id", f["id"]) && IsGameFieldJson("name", f["name"]);
    assert IsGameFieldJson("isInstalled", f["isInstalled"]) && IsGameFieldJson("playCount", f["playCount"]);
    assert IsGameFieldJson("createdAt", f["createdAt"]) && IsGameFieldJson("lastPlayed", f["lastPlayed"]);
    assert IsGameFieldJson("collectionIds", f["collectionIds"]);
    Game(f["id"].s, f["name"].s, DecodeOptionalText(f, "exePath"), f["isInstalled"].b,
         f["createdAt"].s, f["lastPlayed"].s, f["playCount"].n,
         DecodeOptionalText(f, "iconPath"), DecodeOptionalText(f, "cardIconPath"),
         DecodeTextList(f["collectionIds"]))
  }

  /** A written game has the shape the schema demands and reads back as itself. */
  lemma GameRoundTrip(g: Game)
    ensures IsGameJson(EncodeGame(g))
    ensures DecodeGame(EncodeGame(g)) == g
  {
    EncodedGameAdmitted(g);
    var f := EncodeGame(g).fields;
    var r := DecodeGame(EncodeGame(g));
    assert f["id"] == JString(g.id) && f["name"] == JString(g.name);
    assert f["isInstalled"] == JBool(g.isInstalled) && f["playCount"] == JNumber(g.playCount);
    assert f["createdAt"] == JString(g.createdAt) && f["lastPlayed"] == JString(g.lastPlayed);
    assert f["collectionIds"] == EncodeTextList(g.collectionIds);
    TextListRoundTrip(g.collectionIds);
    OptionalPathRoundTrip(g, "exePath");
    OptionalPathRoundTrip(g, "iconPath");
    OptionalPathRoundTrip(g, "cardIconPath");
  }

  lemma EncodedGameAdmitted(g: Game)
    ensures IsGameJson(EncodeGame(g))
  {
    var f := EncodeGame(g).fields;
    forall n | n in f ensures IsGameFieldJson(n, f[n]) {
      GameFieldFits(g, n);
    }
    assert GameRequiredNames <= f.Keys;
  }

  lemma GameFieldFits(g: Game, n: string)
    ensures IsGameFieldJson(n, GameField(g, n))
  {
    if n in GameOptionalNames {
      assert n == "exePath" || n == "iconPath" || n == "cardIconPath";
    } else if n == "collectionIds" {
      assert GameField(g, n) == EncodeTextList(g.collectionIds);
    }
  }

  /** An optional path reads back as it was: present with its text, or missing. */
  lemma OptionalPathRoundTrip(g: Game, n: string)
    requires n in GameOptionalNames
    ensures DecodeOptionalText(EncodeGame(g).fields, n) ==
      (if n == "exePath" then g.exePath else if n == "iconPath" then g.iconPath else g.cardIconPath)
  {
  }

  function EncodeCollection(c: Collection): Json {
    JObject(map["id" := JString(c.id), "name" := JString(c.name), "gameIds" := EncodeTextList(c.gameIds)])
  }

  function DecodeCollection(j: Json): Collection
    requires IsCollectionJson(j)
  {
    Collection(j.fields["id"].s, j.fields["name"].s, DecodeTextList(j.fields["gameIds"]))
  }

  lemma CollectionRoundTrip(c: Collection)
    ensures IsCollectionJson(EncodeCollection(c))
    ensures DecodeCollection(EncodeCollection(c)) == c
  {
    assert EncodeCollection(c).fields.Keys == {"id", "name", "gameIds"};
  }

  // ---------------------------------------------------------------------
  // Preferences

  const AllPrefKeys: set<PrefKey> := {
    WindowBounds, FullScreen, Maximized, LoginWithPin, PinCode, SideMenuCollapsed, ThemeKey,
    ShowOnlyInstalledGamesAsDefault, GameViewKind, OpenBigpictureMode, StartOnWindowsBoot }

  lemma AllPrefKeysListed(k: PrefKey)
    ensures k in AllPrefKeys
  {
    match k
    case WindowBounds =>
    case FullScreen =>
    case Maximized =>
    case LoginWithPin =>
    case PinCode =>
    case SideMenuCollapsed =>
    case ThemeKey =>
    case ShowOnlyInstalledGamesAsDefault =>
    case GameViewKind =>
    case OpenBigpictureMode =>
    case StartOnWindowsBoot =>
  }

  function EncodePrefValue(v: PrefValue): Json {
    match v
    case NullValue => JNull
    case BoolValue(b) => JBool(b)
    case TextValue(t) => JString(t)
    case ThemeValue(t) => JString(ThemeName(t))
    case ViewValue(view) => JString(ViewKindName(view))
    case BoundsValue(r) => JObject(map["x" := JNumber(r.x), "y" := JNumber(r.y),
                                       "width" := JNumber(r.width), "height" := JNumber(r.height)])
  }

  function ParseTheme(s: string): Theme
    requires s in ThemeNames
  {
    if s == "light" then Light else if s == "dark" then Dark else System
  }

  function ParseViewKind(s: string): ViewKind
    requires s in ViewKindNames
  {
    if s == "list" then ListView else if s == "icon" then IconView else CardView
  }

  function DecodePrefValue(k: PrefKey, j: Json): PrefValue
    requires IsPreferenceJson(k, j)
  {
    match k
    case WindowBounds =>
      BoundsValue(Rect(j.fields["x"].n, j.fields["y"].n, j.fields["width"].n, j.fields["height"].n))
    case ThemeKey => ThemeValue(ParseTheme(j.s))
    case GameViewKind => ViewValue(ParseViewKind(j.s))
    case PinCode => if j.JNull? then NullValue else TextValue(j.s)
    case _ => if j.JNull? then NullValue else BoolValue(j.b)
  }

  lemma PrefValueRoundTrip(k: PrefKey, v: PrefValue)
    requires Fits(k, v)
    ensures IsPreferenceJson(k, EncodePrefValue(v))
    ensures DecodePrefValue(k, EncodePrefValue(v)) == v
  {
    if v.BoundsValue? {
      assert EncodePrefValue(v).fields.Keys == {"x", "y", "width", "height"};
    }
  }

  /** The property names of the preference keys. */
  const PrefNames: set<string> := {
    "windowBounds", "fullScreen", "maximized", "loginWithPin", "pinCode", "sideMenuCollapsed", "theme",
    "showOnlyInstalledGamesAsDefault", "gameViewKind", "openBigpictureMode", "startOnWindowsBoot" }

  /** The preferences as a JSON object: each stored key under its property name. */
  function EncodePreferences(p: Preferences): Json {
    JObject(map n | n in PrefNames && KeyOf(n).Some? && KeyOf(n).value in p :: EncodePrefValue(p[KeyOf(n).value]))
  }

  function DecodePreferences(j: Json): Preferences
    requires IsPreferencesJson(j)
  {
    KeyNamesReadBack();
    map k | k in AllPrefKeys && KeyName(k) in j.fields :: DecodePrefValue(k, j.fields[KeyName(k)])
  }

  /** Each stored key is written under its own name, and only those names are written. */
  lemma EncodedPreferenceNames(p: Preferences, n: string)
    ensures n in EncodePreferences(p).fields <==> KeyOf(n).Some? && KeyOf(n).value in p
    ensures n in EncodePreferences(p).fields ==>
      EncodePreferences(p).fields[n] == EncodePrefValue(p[KeyOf(n).value])
  {
    if KeyOf(n).Some? {
      NameOfEachKey(n);
      NamesListed(KeyOf(n).value);
    }
  }

  lemma NamesListed(k: PrefKey)
    ensures KeyName(k) in PrefNames
  {
  }

  lemma PreferencesRoundTrip(p: Preferences)
    requires WellTyped(p)
    ensures IsPreferencesJson(EncodePreferences(p))
    ensures DecodePreferences(EncodePreferences(p)) == p
  {
    EncodedPreferencesAdmitted(p);
    var d := DecodePreferences(EncodePreferences(p));
    DecodedPreferenceKeys(p);
    DecodedPreferenceValues(p);
    SameMaps(d, p);
  }

  lemma SameMaps<K, V>(a: map<K, V>, b: map<K, V>)
    requires forall k :: k in a <==> k in b
    requires forall k | k in b :: k in a && a[k] == b[k]
    ensures a == b
  {
  }

  lemma EncodedPreferencesAdmitted(p: Preferences)
    requires WellTyped(p)
    ensures IsPreferencesJson(EncodePreferences(p))
  {
    var j := EncodePreferences(p);
    forall n | n in j.fields ensures KeyOf(n).Some? && IsPreferenceJson(KeyOf(n).value, j.fields[n]) {
      EncodedPreferenceNames(p, n);
      PrefValueRoundTrip(KeyOf(n).value, p[KeyOf(n).value]);
    }
  }

  lemma DecodedPreferenceKeys(p: Preferences)
    requires WellTyped(p)
    ensures IsPreferencesJson(EncodePreferences(p))
    ensures forall k :: k in DecodePreferences(EncodePreferences(p)) <==> k in p
  {
    EncodedPreferencesAdmitted(p);
    forall k ensures k in DecodePreferences(EncodePreferences(p)) <==> k in p {
      AllPrefKeysListed(k);
      EncodedPreferenceNames(p, KeyName(k));
      KeyOfKeyName(k, KeyName(k));
    }
  }

  lemma DecodedPreferenceValues(p: Preferences)
    requires WellTyped(p)
    ensures IsPreferencesJson(EncodePreferences(p))
    ensures forall k | k in p ::
      k in DecodePreferences(EncodePreferences(p)) && DecodePreferences(EncodePreferences(p))[k] == p[k]
  {
    EncodedPreferencesAdmitted(p);
    DecodedPreferenceKeys(p);
    var d := DecodePreferences(EncodePreferences(p));
    forall k | k in p ensures d[k] == p[k] {
      EncodedPreferenceNames(p, KeyName(k));
      KeyOfKeyName(k, KeyName(k));
      PrefValueRoundTrip(k, p[k]);
    }
  }

  // ---------------------------------------------------------------------
  // The whole document

  function EncodeGames(games: seq<Game>): Json {
    JArray(seq(|games|, i requires 0 <= i < |games| => EncodeGame(games[i])))
  }

  predicate IsGamesJson(j: Json) {
    j.JArray? && forall i | 0 <= i < |j.items| :: IsGameJson(j.items[i])
  }

  function DecodeGames(j: Json): seq<Game>
    requires IsGamesJson(j)
  {
    seq(|j.items|, i requires 0 <= i < |j.items| => DecodeGame(j.items[i]))
  }

  lemma GamesRoundTrip(games: seq<Game>)
    ensures IsGamesJson(EncodeGames(games))
    ensures DecodeGames(EncodeGames(games)) == games
  {
    forall i | 0 <= i < |games| ensures IsGameJson(EncodeGames(games).items[i]) {
      GameRoundTrip(games[i]);
    }
    forall i | 0 <= i < |games| ensures DecodeGames(EncodeGames(games))[i] == games[i] {
      GameRoundTrip(games[i]);
    }
  }

  function EncodeCollections(collections: seq<Collection>): Json {
    JArray(seq(|collections|, i requires 0 <= i < |collections| => EncodeCollection(collections[i])))
  }

  predicate IsCollectionsJson(j: Json) {
    j.JArray? && forall i | 0 <= i < |j.items| :: IsCollectionJson(j.items[i])
  }

  function DecodeCollections(j: Json): seq<Collection>
    requires IsCollectionsJson(j)
  {
    seq(|j.items|, i requires 0 <= i < |j.items| => DecodeCollection(j.items[i]))
  }

  lemma CollectionsRoundTrip(collections: seq<Collection>)
    ensures IsCollectionsJson(EncodeCollections(collections))
    ensures DecodeCollections(EncodeCollections(collections)) == collections
  {
    forall i | 0 <= i < |collections| ensures IsCollectionJson(EncodeCollections(collections).items[i]) {
      CollectionRoundTrip(collections[i]);
    }
    forall i | 0 <= i < |collections|
      ensures DecodeCollections(EncodeCollections(collections))[i] == collections[i]
    {
      CollectionRoundTrip(collections[i]);
    }
  }

  /** The document holds a value under top-level name `n`. */
  predicate DocumentHas(d: Document, n: string) {
    (n == GamesKey && d.games.Some?)
    || (n == CollectionsKey && d.collections.Some?)
    || (n == "user" && d.preferences.Some?)
  }

  function DocumentField(d: Document, n: string): Json
    requires DocumentHas(d, n)
  {
    if n == GamesKey then EncodeGames(d.games.value)
    else if n == CollectionsKey then EncodeCollections(d.collections.value)
    else JObject(map["preferences" := EncodePreferences(d.preferences.value)])
  }

  /** `store.store`: every key that was written, with `user.preferences` nested under `user`. */
  function EncodeDocument(d: Document): Json {
    JObject(map n | n in {GamesKey, CollectionsKey, "user"} && DocumentHas(d, n) :: DocumentField(d, n))
  }

  /** The content `store.set(document)` writes for an admitted document. */
  function DecodeDocument(j: Json): Document
    requires IsStoreDocument(j)
  {
    var f := j.fields;
    assert IsGamesJson(f["games"]);
    assert "collections" in f ==> IsCollectionsJson(f["collections"]);
    Document(
      Some(DecodeGames(f["games"])),
      if "collections" in f then Some(DecodeCollections(f["collections"])) else None,
      if "user" in f then Some(DecodePreferences(f["user"].fields["preferences"])) else None)
  }

  /**
   * A store that holds a games list and well-typed preferences is written as
   * a document the schema admits, and reading that document back restores
   * exactly the same store content.
   */
  lemma DocumentRoundTrip(d: Document)
    requires d.games.Some?
    requires d.preferences.Some? ==> WellTyped(d.preferences.value)
    ensures IsStoreDocument(EncodeDocument(d))
    ensures DecodeDocument(EncodeDocument(d)) == d
  {
    var j := EncodeDocument(d);
    EncodedDocumentAdmitted(d);
    EncodedDocumentFields(d);
    var r := DecodeDocument(j);
    GamesRoundTrip(d.games.value);
    assert r.games == d.games;
    if d.collections.Some? {
      CollectionsRoundTrip(d.collections.value);
    }
    assert r.collections == d.collections;
    if d.preferences.Some? {
      PreferencesRoundTrip(d.preferences.value);
    }
    assert r.preferences == d.preferences;
  }

  lemma EncodedDocumentAdmitted(d: Document)
    requires d.games.Some?
    requires d.preferences.Some? ==> WellTyped(d.preferences.value)
    ensures IsStoreDocument(EncodeDocument(d))
  {
    var f := EncodeDocument(d).fields;
    EncodedDocumentFields(d);
    GamesRoundTrip(d.games.value);
    assert IsGamesJson(f["games"]);
    if d.collections.Some? {
      CollectionsRoundTrip(d.collections.value);
      assert IsCollectionsJson(f["collections"]);
    }
    if d.preferences.Some? {
      UserObjectAdmitted(d.preferences.value);
      assert IsUserJson(f["user"]);
    }
  }

  lemma UserObjectAdmitted(p: Preferences)
    requires WellTyped(p)
    ensures IsUserJson(JObject(map["preferences" := EncodePreferences(p)]))
  {
    var u := EncodePreferences(p);
    EncodedPreferencesAdmitted(p);
    var m := map["preferences" := u];
    assert m.Keys == {"preferences"};
    assert m["preferences"] == u;
  }

  /** Which top-level names the written document holds, and what under each. */
  lemma EncodedDocumentFields(d: Document)
    ensures var f := EncodeDocument(d).fields;
      f.Keys <= {"collections", "games", "user"}
      && (GamesKey in f <==> d.games.Some?)
      && (CollectionsKey in f <==> d.collections.Some?)
      && ("user" in f <==> d.preferences.Some?)
      && (d.games.Some? ==> f[GamesKey] == EncodeGames(d.games.value))
      && (d.collections.Some? ==> f[CollectionsKey] == EncodeCollections(d.collections.value))
      && (d.preferences.Some? ==> f["user"] == JObject(map["preferences" := EncodePreferences(d.preferences.value)]))
  {
  }

  /** A store in which no games list was ever written exports a document the import refuses. */
  lemma ExportWithoutGamesRefused(d: Document)
    requires d.games.None?
    ensures !IsStoreDocument(EncodeDocument(d))
  {
  }
}
