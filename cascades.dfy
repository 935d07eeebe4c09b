// The renderer's helpers that keep games and collections consistent: each is
// a fixed sequence of repository calls, taken here in the order written and
// each applied to the one shared store.
module Cascades {
  import opened Common
  import opened Records
  import opened RecordStore
  import opened GameRepository
  import opened CollectionRepository
  import opened PreferencesRepository

  // ---------------------------------------------------------------------
  // Adding a game to a list of selected collections

  /** Some collection of `selected` has this id. */
  predicate Selected(selected: seq<Collection>, id: string) {
    exists i | 0 <= i < |selected| :: selected[i].id == id
  }

  /**
   * Every collection of `cur` is one of `before` with the same id and name,
   * whose game ids differ at most in occurrences of `gameId`.
   */
  predicate SameApartFrom(cur: seq<Collection>, before: seq<Collection>, gameId: string) {
    forall c | c in cur :: KeptApartFrom(c, before, gameId)
  }

  /** `c` is one of `before` with the same id and name, up to occurrences of `gameId`. */
  predicate KeptApartFrom(c: Collection, before: seq<Collection>, gameId: string) {
    exists b | b in before ::
      b.id == c.id && b.name == c.name && WithoutId(c.gameIds, gameId) == WithoutId(b.gameIds, gameId)
  }

  /**
   * `gameId` was added to every collection of `cur` whose id is selected,
   * every other collection of `cur` is one of `before` as it was, and the
   * selected ones keep the id, name and other game ids of one of `before`.
   */
  predicate AddedTo(cur: seq<Collection>, before: seq<Collection>, gameId: string, selected: seq<Collection>) {
    (forall c | c in cur && Selected(selected, c.id) :: gameId in c.gameIds)
    && (forall c | c in cur && !Selected(selected, c.id) :: c in before)
    && SameApartFrom(cur, before, gameId)
  }

  /** A selection one longer selects the ids it selected and the id of its new last element. */
  lemma SelectedExtend(selected: seq<Collection>, k: nat, id: string)
    requires k < |selected|
    ensures Selected(selected[..k + 1], id) <==> Selected(selected[..k], id) || id == selected[k].id
  {
    if Selected(selected[..k + 1], id) {
      var i :| 0 <= i < k + 1 && selected[..k + 1][i].id == id;
      if i < k { assert selected[..k][i] == selected[..k + 1][i]; }
    }
    if Selected(selected[..k], id) {
      var i :| 0 <= i < k && selected[..k][i].id == id;
      assert selected[..k + 1][i] == selected[..k][i];
    }
    if id == selected[k].id {
      assert selected[..k + 1][k].id == id;
    }
  }

  /** After `addGame(x, gameId)` each collection is the moved one, with id `x`, or one of those kept in place. */
  lemma AddedCollectionsOrigin(cur: seq<Collection>, x: string, gameId: string)
    requires HasCollection(cur, x)
    ensures WithGameAdded(cur, x, gameId).Some?
    ensures forall c | c in WithGameAdded(cur, x, gameId).value ::
      (c.id == x && gameId in c.gameIds) || (c in cur && c.id != x)
  {
    AddGameMeaning(cur, x, gameId);
    FirstCollectionWithIdMeaning(cur, x);
    WithoutCollectionMeaning(cur, x);
    var r := WithGameAdded(cur, x, gameId).value;
    var last := r[|r| - 1];
    assert r == r[..|r| - 1] + [last];
    assert last.id == x && gameId in last.gameIds by {
      assert last.gameIds[|last.gameIds| - 1] == gameId;
    }
  }

  /** One more `addGame(sc.id, gameId)` for the next selected collection keeps `AddedTo`. */
  lemma AddedToStep(cur: seq<Collection>, before: seq<Collection>, gameId: string, selected: seq<Collection>, k: nat)
    requires k < |selected|
    requires AddedTo(cur, before, gameId, selected[..k])
    ensures WithGameAdded(cur, selected[k].id, gameId).Some? ==>
      AddedTo(WithGameAdded(cur, selected[k].id, gameId).value, before, gameId, selected[..k + 1])
    ensures !HasCollection(cur, selected[k].id) ==> AddedTo(cur, before, gameId, selected[..k + 1])
  {
    var x := selected[k].id;
    forall id {
      SelectedExtend(selected, k, id);
    }
    AddGameMeaning(cur, x, gameId);
    if HasCollection(cur, x) {
      AddedCollectionsOrigin(cur, x, gameId);
      SameApartAfterAdd(cur, before, x, gameId);
    } else {
      forall c | c in cur ensures c.id != x {
        var i :| 0 <= i < |cur| && cur[i] == c;
      }
    }
  }

  /** `addGame(x, gameId)` changes a collection only by one more entry of `gameId`. */
  lemma SameApartAfterAdd(cur: seq<Collection>, before: seq<Collection>, x: string, gameId: string)
    requires SameApartFrom(cur, before, gameId) && HasCollection(cur, x)
    ensures WithGameAdded(cur, x, gameId).Some?
    ensures SameApartFrom(WithGameAdded(cur, x, gameId).value, before, gameId)
  {
    AddGameMeaning(cur, x, gameId);
    var r := WithGameAdded(cur, x, gameId).value;
    forall c | c in r ensures KeptApartFrom(c, before, gameId) {
      var i :| 0 <= i < |r| && r[i] == c;
      if i == |r| - 1 {
        var moved := FirstCollectionWithId(cur, x).value;
        FirstCollectionWithIdMeaning(cur, x);
        WithoutIdOfAppended(moved.gameIds, gameId);
        assert KeptApartFrom(moved, before, gameId);
      } else {
        assert r[..|r| - 1][i] == c;
        WithoutCollectionMeaning(cur, x);
        assert c in cur;
      }
    }
  }

  /** When no collection held the game before, it ends up in exactly the selected ones. */
  lemma AddedToExactly(cur: seq<Collection>, before: seq<Collection>, gameId: string, selected: seq<Collection>)
    requires AddedTo(cur, before, gameId, selected)
    requires forall c | c in before :: gameId !in c.gameIds
    ensures forall c | c in cur :: gameId in c.gameIds <==> Selected(selected, c.id)
  {
  }

  /** `selectedCollections.forEach(sc => gameCollections.addGame(sc.id, gameId))` */
  method AddToCollections(collections: CollectionStore, gameId: string, selected: seq<Collection>)
    modifies collections.store
    ensures AddedTo(collections.Collections(), old(collections.Collections()), gameId, selected)
    ensures forall id :: HasCollection(collections.Collections(), id) <==> HasCollection(old(collections.Collections()), id)
    ensures collections.store.games == old(collections.store.games)
    ensures collections.store.preferences == old(collections.store.preferences)
  {
    ghost var before := collections.Collections();
    var k := 0;
    while k < |selected|
      invariant 0 <= k <= |selected|
      invariant AddedTo(collections.Collections(), before, gameId, selected[..k])
      invariant forall id :: HasCollection(collections.Collections(), id) <==> HasCollection(before, id)
      invariant collections.store.games == old(collections.store.games)
      invariant collections.store.preferences == old(collections.store.preferences)
    {
      ghost var cur := collections.Collections();
      AddedToStep(cur, before, gameId, selected, k);
      var ok := collections.AddGame(selected[k].id, gameId);
      if ok {
        AddKeepsIds(cur, selected[k].id, gameId);
      }
      k := k + 1;
    }
    assert selected[..k] == selected;
  }

  /** Adding a game to a collection that exists keeps the set of collection ids. */
  lemma AddKeepsIds(cur: seq<Collection>, x: string, gameId: string)
    requires HasCollection(cur, x)
    ensures WithGameAdded(cur, x, gameId).Some?
    ensures forall id :: HasCollection(WithGameAdded(cur, x, gameId).value, id) <==> HasCollection(cur, id)
  {
    FirstCollectionWithIdMeaning(cur, x);
    forall id ensures HasCollection(WithGameAdded(cur, x, gameId).value, id) <==> HasCollection(cur, id) {
      MovedLastKeepsIds(cur, x, (c: Collection) => c.(gameIds := c.gameIds + [gameId]), id);
    }
  }

  // ---------------------------------------------------------------------
  // The helpers of the renderer's lib.ts

  /** `updateGameStoreAfterGameRun(game)`: one more play, and the last-played time is now. */
  method UpdateGameStoreAfterGameRun(games: GameStore, game: Game, now: Timestamp)
    modifies games.store
    ensures games.store.games == Some(SetLastPlayed(PlayCountIncremented(old(games.Games()), game.id), game.id, now))
    ensures games.store.collections == old(games.store.collections)
    ensures games.store.preferences == old(games.store.preferences)
  {
    games.IncrementPlayCount(game.id);
    games.SetLastPlayedDate(game.id, now);
  }

  /** `deleteGameFromStore(game)`: after it no game has the id and no collection refers to it. */
  method DeleteGameFromStore(games: GameStore, collections: CollectionStore, game: Game)
    requires games.store == collections.store
    modifies games.store
    ensures games.store.games == Some(WithoutGame(old(games.Games()), game.id))
    ensures games.store.collections == Some(WithoutGameEverywhere(old(collections.Collections()), game.id))
    ensures games.store.preferences == old(games.store.preferences)
    ensures forall g | g in games.Games() :: g.id != game.id
    ensures forall c | c in collections.Collections() :: game.id !in c.gameIds
  {
    games.Delete(game.id);
    collections.RemoveAGameFromAllCollections(game.id);
    WithoutGameMeaning(old(games.Games()), game.id);
    var after := collections.Collections();
    WithoutGameEverywhereMeaning(old(collections.Collections()), game.id);
    forall c | c in after ensures game.id !in c.gameIds {
      var i :| 0 <= i < |after| && after[i] == c;
    }
  }

  /**
   * `removeGameFromCollection(collection, game)`: the collection's ids become
   * the caller's copy minus the game, and the game's ids its copy minus the
   * collection.
   */
  method RemoveGameFromCollection(games: GameStore, collections: CollectionStore, collection: Collection, game: Game)
    requires games.store == collections.store
    modifies games.store
    ensures collections.store.collections ==
      Some(SetGameIds(old(collections.Collections()), collection.id, WithoutId(collection.gameIds, game.id)))
    ensures games.store.games ==
      Some(SetCollectionIds(old(games.Games()), game.id, WithoutId(game.collectionIds, collection.id)))
    ensures games.store.preferences == old(games.store.preferences)
    ensures forall c | c in collections.Collections() && c.id == collection.id :: game.id !in c.gameIds
    ensures forall g | g in games.Games() && g.id == game.id :: collection.id !in g.collectionIds
  {
    collections.SetGames(collection.id, WithoutId(collection.gameIds, game.id));
    games.SetCollections(game.id, WithoutId(game.collectionIds, collection.id));
    WithoutIdMeaning(collection.gameIds, game.id);
    WithoutIdMeaning(game.collectionIds, collection.id);
    var cs := collections.Collections();
    forall c | c in cs && c.id == collection.id ensures game.id !in c.gameIds {
      var i :| 0 <= i < |cs| && cs[i] == c;
    }
    var gs := games.Games();
    forall g | g in gs && g.id == game.id ensures collection.id !in g.collectionIds {
      var i :| 0 <= i < |gs| && gs[i] == g;
    }
  }

  /** Some game of `games` has this id. */
  predicate HasGame(games: seq<Game>, id: string) {
    exists i | 0 <= i < |games| :: games[i].id == id
  }

  /** No two games of the list share an id. */
  predicate DistinctGameIds(games: seq<Game>) {
    forall i, j | 0 <= i < j < |games| :: games[i].id != games[j].id
  }

  /**
   * Among the first `k` games of `existing`, `j` is the last one with the id
   * of game `i`, so its `setCollections` call is the last to reach game `i`.
   */
  predicate LastWriter(existing: seq<Game>, k: nat, i: nat, j: nat)
    requires i < |existing| && k <= |existing|
  {
    j < k && existing[j].id == existing[i].id
    && forall m | j < m < k :: existing[m].id != existing[i].id
  }

  /**
   * Game `i` after the first `k` calls of `removeCollectionFromAllGames`: if
   * one of those calls named its id, it holds its last writer's ids minus
   * the collection and is otherwise unchanged; if none did, it is as it was.
   */
  predicate GameClearedUpTo(cur: seq<Game>, existing: seq<Game>, k: nat, cid: string, i: nat)
    requires i < |cur| == |existing| && k <= |existing|
  {
    if HasGame(existing[..k], existing[i].id) then
      cur[i].(collectionIds := []) == existing[i].(collectionIds := [])
      && exists j: nat | j < k :: LastWriter(existing, k, i, j)
           && cur[i].collectionIds == WithoutId(existing[j].collectionIds, cid)
    else
      cur[i] == existing[i]
  }

  /** The games after the first `k` calls of `removeCollectionFromAllGames`. */
  predicate ClearedUpTo(cur: seq<Game>, existing: seq<Game>, k: nat, cid: string)
    requires k <= |existing|
  {
    |cur| == |existing| && forall i | 0 <= i < |existing| :: GameClearedUpTo(cur, existing, k, cid, i)
  }

  /**
   * Game `i` of `after` is game `i` of `before` with the collection ids of
   * the last game of `before` that has its id, minus `cid`.
   */
  predicate GameCleared(after: seq<Game>, before: seq<Game>, cid: string, i: nat)
    requires i < |after| == |before|
  {
    after[i].(collectionIds := []) == before[i].(collectionIds := [])
    && exists j: nat | j < |before| :: LastWriter(before, |before|, i, j)
         && after[i].collectionIds == WithoutId(before[j].collectionIds, cid)
  }

  /**
   * `after` is `before` once every game, one after the other, has had its
   * collection ids set to the snapshot's ids minus `cid`.
   */
  predicate CollectionClearedFrom(after: seq<Game>, before: seq<Game>, cid: string) {
    |after| == |before| && forall i | 0 <= i < |before| :: GameCleared(after, before, cid, i)
  }

  /**
   * After the clearing no game refers to the collection, and when the ids
   * are distinct each game keeps exactly its own ids minus the collection.
   */
  lemma CollectionClearedMeaning(after: seq<Game>, before: seq<Game>, cid: string)
    requires CollectionClearedFrom(after, before, cid)
    ensures forall g | g in after :: cid !in g.collectionIds
    ensures DistinctGameIds(before) ==>
      forall i | 0 <= i < |before| :: after[i] == before[i].(collectionIds := WithoutId(before[i].collectionIds, cid))
  {
    forall i | 0 <= i < |before|
      ensures cid !in after[i].collectionIds
      ensures DistinctGameIds(before) ==> after[i] == before[i].(collectionIds := WithoutId(before[i].collectionIds, cid))
    {
      assert GameCleared(after, before, cid, i);
      var j: nat :| j < |before| && LastWriter(before, |before|, i, j)
        && after[i].collectionIds == WithoutId(before[j].collectionIds, cid);
      WithoutIdMeaning(before[j].collectionIds, cid);
    }
  }

  /** A prefix one longer names the ids it named and the id of its new last game. */
  lemma HasGameExtend(existing: seq<Game>, k: nat, id: string)
    requires k < |existing|
    ensures HasGame(existing[..k + 1], id) <==> HasGame(existing[..k], id) || existing[k].id == id
  {
    if HasGame(existing[..k + 1], id) {
      var j :| 0 <= j < k + 1 && existing[..k + 1][j].id == id;
      if j < k { assert existing[..k][j] == existing[..k + 1][j]; }
    }
    if HasGame(existing[..k], id) {
      var j :| 0 <= j < k && existing[..k][j].id == id;
      assert existing[..k + 1][j] == existing[..k][j];
    }
    if existing[k].id == id {
      assert existing[..k + 1][k].id == id;
    }
  }

  /** One more game's ids set to its snapshot ids minus the collection keeps `ClearedUpTo`. */
  lemma ClearedOneMore(existing: seq<Game>, cur: seq<Game>, k: nat, cid: string)
    requires k < |existing| && ClearedUpTo(cur, existing, k, cid)
    ensures ClearedUpTo(SetCollectionIds(cur, existing[k].id, WithoutId(existing[k].collectionIds, cid)), existing, k + 1, cid)
  {
    var next := SetCollectionIds(cur, existing[k].id, WithoutId(existing[k].collectionIds, cid));
    var visited := k + 1;
    forall i | 0 <= i < |existing| ensures GameClearedUpTo(next, existing, visited, cid, i) {
      var id := existing[i].id;
      assert GameClearedUpTo(cur, existing, k, cid, i);
      HasGameExtend(existing, k, id);
      assert cur[i].id == id;
      if id == existing[k].id {
        assert LastWriter(existing, k + 1, i, k);
      } else if HasGame(existing[..k], id) {
        var j: nat :| j < k && LastWriter(existing, k, i, j)
          && cur[i].collectionIds == WithoutId(existing[j].collectionIds, cid);
        assert LastWriter(existing, k + 1, i, j);
      }
    }
  }

  /** Once every game of the snapshot has been visited, the list is the cleared snapshot. */
  lemma ClearedAll(cur: seq<Game>, existing: seq<Game>, cid: string)
    requires ClearedUpTo(cur, existing, |existing|, cid)
    ensures CollectionClearedFrom(cur, existing, cid)
  {
    assert existing[..|existing|] == existing;
    forall i | 0 <= i < |existing| ensures GameCleared(cur, existing, cid, i) {
      assert GameClearedUpTo(cur, existing, |existing|, cid, i);
      assert existing[..|existing|][i] == existing[i];
    }
  }

  /**
   * `removeCollectionFromAllGames(collection)`: every game of a snapshot of
   * the list, one after the other, gets that snapshot's collection ids minus
   * the collection. No game refers to the collection afterwards, nothing
   * else in a game changes, and with distinct ids each game keeps its own
   * other collection ids.
   */
  method RemoveCollectionFromAllGames(games: GameStore, collection: Collection)
    modifies games.store
    ensures CollectionClearedFrom(games.Games(), old(games.Games()), collection.id)
    ensures forall g | g in games.Games() :: collection.id !in g.collectionIds
    ensures games.store.collections == old(games.store.collections)
    ensures games.store.preferences == old(games.store.preferences)
  {
    var existing := games.GetGames();
    if |existing| > 0 {
      var k := 0;
      while k < |existing|
        invariant 0 <= k <= |existing|
        invariant ClearedUpTo(games.Games(), existing, k, collection.id)
        invariant games.store.collections == old(games.store.collections)
        invariant games.store.preferences == old(games.store.preferences)
      {
        var g := existing[k];
        ghost var cur := games.Games();
        games.SetCollections(g.id, WithoutId(g.collectionIds, collection.id));
        ClearedOneMore(existing, cur, k, collection.id);
        k := k + 1;
      }
      ClearedAll(games.Games(), existing, collection.id);
    }
    CollectionClearedMeaning(games.Games(), existing, collection.id);
  }

  /**
   * `updateGame(game, selectedCollections)`: the record is replaced, the game
   * is taken out of every collection and then added to each selected one, so
   * afterwards it is in exactly the selected collections that exist.
   */
  method UpdateGame(games: GameStore, collections: CollectionStore, game: Game, selected: seq<Collection>)
    requires games.store == collections.store
    modifies games.store
    ensures games.store.games == Some(ReplaceGame(old(games.Games()), game))
    ensures forall c | c in collections.Collections() :: game.id in c.gameIds <==> Selected(selected, c.id)
    ensures forall id :: HasCollection(collections.Collections(), id) <==> HasCollection(old(collections.Collections()), id)
    ensures SameApartFrom(collections.Collections(), old(collections.Collections()), game.id)
    ensures games.store.preferences == old(games.store.preferences)
  {
    games.UpdateGame(game);
    collections.RemoveAGameFromAllCollections(game.id);
    ghost var cleared := collections.Collections();
    WithoutGameEverywhereMeaning(old(collections.Collections()), game.id);
    forall c | c in cleared ensures game.id !in c.gameIds {
      var i :| 0 <= i < |cleared| && cleared[i] == c;
    }
    forall id ensures HasCollection(cleared, id) <==> HasCollection(old(collections.Collections()), id) {
      if HasCollection(old(collections.Collections()), id) {
        var i :| 0 <= i < |old(collections.Collections())| && old(collections.Collections())[i].id == id;
        assert cleared[i].id == id;
      }
    }
    AddToCollections(collections, game.id, selected);
    AddedToExactly(collections.Collections(), cleared, game.id, selected);
    SameApartFromCleared(collections.Collections(), old(collections.Collections()), game.id);
  }

  /** Taking a game out of every collection first changes nothing apart from that game's entries. */
  lemma SameApartFromCleared(cur: seq<Collection>, before: seq<Collection>, gameId: string)
    requires SameApartFrom(cur, WithoutGameEverywhere(before, gameId), gameId)
    ensures SameApartFrom(cur, before, gameId)
  {
    var cleared := WithoutGameEverywhere(before, gameId);
    forall c | c in cur ensures KeptApartFrom(c, before, gameId) {
      var b :| b in cleared && b.id == c.id && b.name == c.name
        && WithoutId(c.gameIds, gameId) == WithoutId(b.gameIds, gameId);
      var i :| 0 <= i < |cleared| && cleared[i] == b;
      WithoutIdMeaning(before[i].gameIds, gameId);
      assert before[i] in before;
    }
  }

  /**
   * `addGame(gameData, selectedCollections)`: the collections are touched
   * only when the game was created, and then the new game is in every
   * selected collection that exists.
   */
  method AddGame(games: GameStore, collections: CollectionStore, data: GameData, selected: seq<Collection>,
                 freshId: string, now: Timestamp)
    returns (created: Option<Game>)
    requires games.store == collections.store
    modifies games.store
    ensures created.None? <==> Utf16Length(Trim(data.name)) < 2
    ensures created.None? ==> games.store.Contents() == old(games.store.Contents())
    ensures created.Some? ==> created.value == NewGame(data, freshId, now)
    ensures created.Some? ==> games.store.games == Some([created.value] + old(games.Games()))
    ensures created.Some? ==>
      AddedTo(collections.Collections(), old(collections.Collections()), freshId, selected)
    ensures games.store.preferences == old(games.store.preferences)
  {
    created := games.CreateGame(data, freshId, now);
    if created.Some? {
      AddToCollections(collections, created.value.id, selected);
    }
  }

  /** `deleteCollection(collection)`: the collection is gone and no game refers to it. */
  method DeleteCollection(games: GameStore, collections: CollectionStore, collection: Collection)
    requires games.store == collections.store
    modifies games.store
    ensures collections.store.collections == Some(WithoutCollection(old(collections.Collections()), collection.id))
    ensures forall c | c in collections.Collections() :: c.id != collection.id
    ensures CollectionClearedFrom(games.Games(), old(games.Games()), collection.id)
    ensures forall g | g in games.Games() :: collection.id !in g.collectionIds
    ensures games.store.preferences == old(games.store.preferences)
  {
    collections.Delete(collection.id);
    WithoutCollectionMeaning(old(collections.Collections()), collection.id);
    RemoveCollectionFromAllGames(games, collection);
  }

  // ---------------------------------------------------------------------
  // Running a game

  /**
   * `runGame(game)`: nothing is launched when the path is missing or only
   * blank; otherwise the result is whether `shell.openExternal` succeeds
   * for the path as stored.
   */
  function RunGame(game: Game, openExternal: string -> bool): (launched: bool)
    ensures launched <==> game.exePath.Some? && !AllSpace(game.exePath.value) && openExternal(game.exePath.value)
  {
    if game.exePath.None? then false
    else
      TrimEmptyIffAllSpace(game.exePath.value);
      if Trim(game.exePath.value) == "" then false else openExternal(game.exePath.value)
  }

  // ---------------------------------------------------------------------
  // Preferences saved when leaving the home page

  /** The object `saveUserPreferencesOnExit` writes. */
  function ExitPatch(sideMenuCollapsed: bool, view: ViewKind, theme: Theme): (p: PreferencesPatch)
    ensures p.Keys == {SideMenuCollapsed, GameViewKind, ThemeKey}
    ensures forall k | k in p :: p[k].Some?
    ensures PatchWellTyped(p)
  {
    map[SideMenuCollapsed := Some(BoolValue(sideMenuCollapsed)),
        GameViewKind := Some(ViewValue(view)),
        ThemeKey := Some(ThemeValue(theme))]
  }

  /** The three values are written and every other stored preference survives the merge. */
  lemma ExitKeepsOtherPreferences(stored: Option<Preferences>, sideMenuCollapsed: bool, view: ViewKind, theme: Theme)
    ensures var r := Merge(stored, ExitPatch(sideMenuCollapsed, view, theme));
      r[SideMenuCollapsed] == BoolValue(sideMenuCollapsed)
      && r[GameViewKind] == ViewValue(view) && r[ThemeKey] == ThemeValue(theme)
      && forall k | k !in {SideMenuCollapsed, GameViewKind, ThemeKey} ::
           (k in r <==> stored.Some? && k in stored.value) && (k in r ==> r[k] == stored.value[k])
  {
    var p := ExitPatch(sideMenuCollapsed, view, theme);
    assert p[SideMenuCollapsed] == Some(BoolValue(sideMenuCollapsed));
    assert p[GameViewKind] == Some(ViewValue(view));
    assert p[ThemeKey] == Some(ThemeValue(theme));
  }

  method SaveUserPreferencesOnExit(prefs: UserPreferencesStore, sideMenuCollapsed: bool, view: ViewKind, theme: Theme)
    modifies prefs.store
    ensures prefs.store.preferences == Some(Merge(old(prefs.store.preferences), ExitPatch(sideMenuCollapsed, view, theme)))
    ensures prefs.store.games == old(prefs.store.games)
    ensures prefs.store.collections == old(prefs.store.collections)
  {
    prefs.SetUserPreferences(ExitPatch(sideMenuCollapsed, view, theme));
  }
}
