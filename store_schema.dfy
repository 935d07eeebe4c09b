// The schema an imported backup must satisfy before it may replace the
// store, and a direct reading of what it demands, proved equivalent.
module StoreSchema {
  import opened Common
  import opened Json
  import opened JsonSchema
  import opened Records

  // ---------------------------------------------------------------------
  // The schema as the main process declares it

  const Text := Leaf(StringType, false)
  const NullableText := Leaf(StringType, true)
  const Number := Leaf(NumberType, false)
  const Boolean := Leaf(BooleanType, false)
  const NullableBoolean := Leaf(BooleanType, true)
  const TextList := ArrayOf(Text)

  const CollectionSchema := ClosedObject(
    map["id" := Text, "name" := Text, "gameIds" := TextList],
    ["id", "name", "gameIds"])

  const GameSchema := ClosedObject(
    map["id" := Text, "name" := Text, "exePath" := NullableText, "isInstalled" := Boolean,
        "createdAt" := Text, "lastPlayed" := Text, "playCount" := Number,
        "iconPath" := NullableText, "cardIconPath" := NullableText, "collectionIds" := TextList],
    ["id", "name", "isInstalled", "createdAt", "lastPlayed", "playCount", "collectionIds"])

  const WindowBoundsSchema := ClosedObject(
    map["x" := Number, "y" := Number, "width" := Number, "height" := Number],
    ["x", "y", "width", "height"])

  const ThemeNames := ["light", "dark", "system"]
  const ViewKindNames := ["list", "icon", "card"]

  const PreferencesSchema := ClosedObject(
    map["windowBounds" := WindowBoundsSchema,
        "fullScreen" := NullableBoolean,
        "maximized" := NullableBoolean,
        "loginWithPin" := NullableBoolean,
        "pinCode" := NullableText,
        "sideMenuCollapsed" := NullableBoolean,
        "theme" := Enum(ThemeNames, true),
        "showOnlyInstalledGamesAsDefault" := NullableBoolean,
        "gameViewKind" := Enum(ViewKindNames, true),
        "openBigpictureMode" := NullableBoolean,
        "startOnWindowsBoot" := NullableBoolean],
    [])

  const UserSchema := ClosedObject(map["preferences" := PreferencesSchema], ["preferences"])

  const DocumentSchema := ClosedObject(
    map["collections" := ArrayOf(CollectionSchema), "games" := ArrayOf(GameSchema), "user" := UserSchema],
    ["games"])

  // ---------------------------------------------------------------------
  // The same demands written out directly

  predicate IsTextList(j: Json) {
    j.JArray? && forall i | 0 <= i < |j.items| :: j.items[i].JString?
  }

  predicate IsTextOrNull(j: Json) {
    j.JString? || j.JNull?
  }

  predicate IsCollectionJson(j: Json) {
    j.JObject? && j.fields.Keys == {"id", "name", "gameIds"}
    && j.fields["id"].JString? && j.fields["name"].JString? && IsTextList(j.fields["gameIds"])
  }

  const GameRequiredNames: set<string> :=
    {"id", "name", "isInstalled", "createdAt", "lastPlayed", "playCount", "collectionIds"}
  const GameOptionalNames: set<string> := {"exePath", "iconPath", "cardIconPath"}

  /** The kind of value a game record holds under property `n`. */
  predicate IsGameFieldJson(n: string, v: Json) {
    if n in GameOptionalNames then IsTextOrNull(v)
    else if n == "isInstalled" then v.JBool?
    else if n == "playCount" then v.JNumber?
    else if n == "collectionIds" then IsTextList(v)
    else v.JString?
  }

  predicate IsGameJson(j: Json) {
    j.JObject? && GameRequiredNames <= j.fields.Keys <= GameRequiredNames + GameOptionalNames
    && forall n | n in j.fields :: IsGameFieldJson(n, j.fields[n])
  }

  predicate IsBoundsJson(j: Json) {
    j.JObject? && j.fields.Keys == {"x", "y", "width", "height"}
    && j.fields["x"].JNumber? && j.fields["y"].JNumber?
    && j.fields["width"].JNumber? && j.fields["height"].JNumber?
  }

  /** What the schema admits under preference key `k`; `null` is refused where an `enum` applies. */
  predicate IsPreferenceJson(k: PrefKey, v: Json) {
    match k
    case WindowBounds => IsBoundsJson(v)
    case PinCode => IsTextOrNull(v)
    case ThemeKey => v.JString? && v.s in ThemeNames
    case GameViewKind => v.JString? && v.s in ViewKindNames
    case _ => v.JBool? || v.JNull?
  }

  predicate IsPreferencesJson(j: Json) {
    j.JObject? && forall n | n in j.fields :: KeyOf(n).Some? && IsPreferenceJson(KeyOf(n).value, j.fields[n])
  }

  predicate IsUserJson(j: Json) {
    j.JObject? && j.fields.Keys == {"preferences"} && IsPreferencesJson(j.fields["preferences"])
  }

  /** A backup document the import accepts. */
  predicate IsStoreDocument(j: Json) {
    j.JObject? && "games" in j.fields && j.fields.Keys <= {"collections", "games", "user"}
    && j.fields["games"].JArray?
    && (forall i | 0 <= i < |j.fields["games"].items| :: IsGameJson(j.fields["games"].items[i]))
    && ("collections" in j.fields ==>
          j.fields["collections"].JArray?
          && forall i | 0 <= i < |j.fields["collections"].items| ::
               IsCollectionJson(j.fields["collections"].items[i]))
    && ("user" in j.fields ==> IsUserJson(j.fields["user"]))
  }

  // ---------------------------------------------------------------------
  // The schema means exactly that

  lemma TextListMeaning(j: Json)
    ensures Valid(TextList, j) <==> IsTextList(j)
  {
    ValidArrayOf(Text, j);
    if j.JArray? {
      forall i | 0 <= i < |j.items| ensures Valid(Text, j.items[i]) <==> j.items[i].JString? {
        ValidLeaf(StringType, false, j.items[i]);
      }
    }
  }

  lemma CollectionSchemaMeaning(j: Json)
    ensures Valid(CollectionSchema, j) <==> IsCollectionJson(j)
  {
    ValidClosedObjectOfThreeRequired("id", Text, "name", Text, "gameIds", TextList, j);
    if j.JObject? && "id" in j.fields && "name" in j.fields && "gameIds" in j.fields {
      ValidLeaf(StringType, false, j.fields["id"]);
      ValidLeaf(StringType, false, j.fields["name"]);
      TextListMeaning(j.fields["gameIds"]);
    }
  }

  lemma GameFieldMeaning(n: string, v: Json)
    requires n in GameSchema.properties
    ensures Valid(GameSchema.properties[n], v) <==> IsGameFieldJson(n, v)
  {
    if n == "collectionIds" {
      TextListMeaning(v);
    } else {
      ValidLeaf(StringType, false, v);
      ValidLeaf(StringType, true, v);
      ValidLeaf(BooleanType, false, v);
      ValidLeaf(NumberType, false, v);
    }
  }

  lemma GameSchemaMeaning(j: Json)
    ensures Valid(GameSchema, j) <==> IsGameJson(j)
  {
    GameSchemaNames();
    ValidClosedObjectByNames(GameSchema.properties, GameSchema.required,
      GameRequiredNames + GameOptionalNames, GameRequiredNames, j);
    if j.JObject? {
      GameFieldsMeaning(j.fields);
    }
  }

  /** The names the game schema declares, and those it requires. */
  lemma GameSchemaNames()
    ensures GameSchema.properties.Keys == GameRequiredNames + GameOptionalNames
    ensures forall r :: r in GameSchema.required <==> r in GameRequiredNames
  {
  }

  lemma GameFieldsMeaning(fields: map<string, Json>)
    ensures (forall k | k in fields && k in GameSchema.properties :: Valid(GameSchema.properties[k], fields[k]))
       <==> (forall n | n in fields && n in GameSchema.properties :: IsGameFieldJson(n, fields[n]))
  {
    forall n | n in fields && n in GameSchema.properties
      ensures Valid(GameSchema.properties[n], fields[n]) <==> IsGameFieldJson(n, fields[n])
    {
      GameFieldMeaning(n, fields[n]);
    }
  }

  lemma BoundsSchemaMeaning(j: Json)
    ensures Valid(WindowBoundsSchema, j) <==> IsBoundsJson(j)
  {
    ValidClosedObjectOfFourRequired("x", "y", "width", "height", Number, j);
    if j.JObject? && j.fields.Keys == {"x", "y", "width", "height"} {
      ValidLeaf(NumberType, false, j.fields["x"]);
      ValidLeaf(NumberType, false, j.fields["y"]);
      ValidLeaf(NumberType, false, j.fields["width"]);
      ValidLeaf(NumberType, false, j.fields["height"]);
    }
  }

  /** The schema the main process declares for the value under a preference key. */
  function PreferenceSchema(k: PrefKey): Schema {
    PreferencesSchema.properties[KeyName(k)]
  }

  lemma PreferenceSchemaMeaning(k: PrefKey, v: Json)
    ensures KeyName(k) in PreferencesSchema.properties
    ensures Valid(PreferenceSchema(k), v) <==> IsPreferenceJson(k, v)
  {
    match k
    case WindowBounds => BoundsSchemaMeaning(v);
    case PinCode => ValidLeaf(StringType, true, v);
    case ThemeKey => ValidEnum(ThemeNames, true, v);
    case GameViewKind => ValidEnum(ViewKindNames, true, v);
    case _ => ValidLeaf(BooleanType, true, v);
  }

  lemma PreferencesSchemaMeaning(j: Json)
    ensures Valid(PreferencesSchema, j) <==> IsPreferencesJson(j)
  {
    ValidClosedObject(PreferencesSchema.properties, [], j);
    if j.JObject? {
      forall n | n in j.fields
        ensures (n in PreferencesSchema.properties && Valid(PreferencesSchema.properties[n], j.fields[n]))
                <==> (KeyOf(n).Some? && IsPreferenceJson(KeyOf(n).value, j.fields[n]))
      {
        if KeyOf(n).Some? {
          KeyOfKeyName(KeyOf(n).value, n);
          PreferenceSchemaMeaning(KeyOf(n).value, j.fields[n]);
        }
      }
    }
  }

  lemma UserSchemaMeaning(j: Json)
    ensures Valid(UserSchema, j) <==> IsUserJson(j)
  {
    ValidClosedObject(map["preferences" := PreferencesSchema], ["preferences"], j);
    if j.JObject? {
      if "preferences" in j.fields {
        PreferencesSchemaMeaning(j.fields["preferences"]);
      }
      if Valid(UserSchema, j) {
        assert j.fields.Keys == {"preferences"};
      }
    }
  }

  /**
   * The store schema admits a document exactly when it is an object with a
   * `games` list, no top-level names besides collections, games and user,
   * and every game, collection and preference of the shape written out above.
   */
  lemma DocumentSchemaMeaning(j: Json)
    ensures Valid(DocumentSchema, j) <==> IsStoreDocument(j)
  {
    DocumentNamesValid(j);
    if j.JObject? {
      if "games" in j.fields {
        GamesListMeaning(j.fields["games"]);
      }
      if "collections" in j.fields {
        CollectionsListMeaning(j.fields["collections"]);
      }
      if "user" in j.fields {
        UserSchemaMeaning(j.fields["user"]);
      }
    }
  }

  /** The top level of the store schema, one name at a time. */
  lemma DocumentNamesValid(j: Json)
    ensures Valid(DocumentSchema, j) <==>
      j.JObject? && "games" in j.fields && j.fields.Keys <= {"collections", "games", "user"}
      && Valid(ArrayOf(GameSchema), j.fields["games"])
      && ("collections" in j.fields ==> Valid(ArrayOf(CollectionSchema), j.fields["collections"]))
      && ("user" in j.fields ==> Valid(UserSchema, j.fields["user"]))
  {
    ValidClosedObjectOfThree("collections", ArrayOf(CollectionSchema), "games", ArrayOf(GameSchema), "user", UserSchema, j);
  }

  lemma GamesListMeaning(g: Json)
    ensures Valid(ArrayOf(GameSchema), g) <==> g.JArray? && forall i | 0 <= i < |g.items| :: IsGameJson(g.items[i])
  {
    ValidArrayOf(GameSchema, g);
    if g.JArray? {
      forall i | 0 <= i < |g.items| ensures Valid(GameSchema, g.items[i]) <==> IsGameJson(g.items[i]) {
        GameSchemaMeaning(g.items[i]);
      }
    }
  }

  lemma CollectionsListMeaning(c: Json)
    ensures Valid(ArrayOf(CollectionSchema), c) <==>
      c.JArray? && forall i | 0 <= i < |c.items| :: IsCollectionJson(c.items[i])
  {
    ValidArrayOf(CollectionSchema, c);
    if c.JArray? {
      forall i | 0 <= i < |c.items| ensures Valid(CollectionSchema, c.items[i]) <==> IsCollectionJson(c.items[i]) {
        CollectionSchemaMeaning(c.items[i]);
      }
    }
  }

  /** A preferences record holding a `reviewRemind` entry is refused. */
  lemma ReviewRemindRefused(fields: map<string, Json>)
    requires "reviewRemind" in fields
    ensures !Valid(PreferencesSchema, JObject(fields))
  {
    assert "reviewRemind" !in PreferencesSchema.properties;
    ClosedObjectRefusesName(PreferencesSchema.properties, [], fields, "reviewRemind");
  }

  /** `nullable` does not extend `enum`: a `null` theme is refused, a `null` flag is not. */
  lemma NullThemeRefused()
    ensures !Valid(PreferencesSchema, JObject(map["theme" := JNull]))
    ensures Valid(PreferencesSchema, JObject(map["fullScreen" := JNull]))
  {
    ClosedObjectOfOneName(PreferencesSchema.properties, "theme", JNull);
    ClosedObjectOfOneName(PreferencesSchema.properties, "fullScreen", JNull);
    assert PreferencesSchema.properties["theme"] == Enum(ThemeNames, true);
    assert PreferencesSchema.properties["fullScreen"] == NullableBoolean;
    ValidEnum(ThemeNames, true, JNull);
    ValidLeaf(BooleanType, true, JNull);
  }
}
