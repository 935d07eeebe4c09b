// The games repository: every mutation reads the whole games list from the
// store, rebuilds it with a map or a filter and writes it back.
module GameRepository {
  import opened Common
  import opened Records
  import opened RecordStore

  /** What a caller supplies to create a game; the store adds the id and the creation time. */
  datatype GameData = GameData(
    name: string,
    exePath: Option<string>,
    isInstalled: bool,
    lastPlayed: Timestamp,
    playCount: Option<int>,
    iconPath: Option<string>,
    cardIconPath: Option<string>,
    collectionIds: seq<string>)

  // ---------------------------------------------------------------------
  // The list transformations

  /** `games.filter(g => g.id === id)[0] || null` */
  function FirstGameWithId(games: seq<Game>, id: string): Option<Game> {
    FirstWhere(games, (g: Game) => g.id == id)
  }

  /** The lookup yields the first game in list order whose id matches, and nothing when none does. */
  lemma FirstGameWithIdIsFirstMatch(games: seq<Game>, id: string)
    ensures FirstGameWithId(games, id).None? <==> forall i | 0 <= i < |games| :: games[i].id != id
    ensures FirstGameWithId(games, id).Some? ==>
      exists i | 0 <= i < |games| ::
        games[i] == FirstGameWithId(games, id).value && games[i].id == id
        && forall j | 0 <= j < i :: games[j].id != id
  {
    FirstWhereIsFirstMatch(games, (g: Game) => g.id == id);
  }

  /** `{ id: nanoid(), createdAt: new Date(Date.now()), playCount: 0, ...gameData }` */
  function NewGame(data: GameData, freshId: string, now: Timestamp): (g: Game)
    ensures g.id == freshId && g.createdAt == now
    ensures g.playCount == data.playCount.GetOr(0)
    ensures g.name == data.name && g.exePath == data.exePath && g.isInstalled == data.isInstalled
    ensures g.lastPlayed == data.lastPlayed && g.iconPath == data.iconPath
    ensures g.cardIconPath == data.cardIconPath && g.collectionIds == data.collectionIds
  {
    Game(freshId, data.name, data.exePath, data.isInstalled, now, data.lastPlayed,
         if data.playCount.Some? then data.playCount.value else 0,
         data.iconPath, data.cardIconPath, data.collectionIds)
  }

  /** A play count the caller supplies wins over the default of 0, because the data is spread last. */
  lemma SuppliedPlayCountWins(data: GameData, freshId: string, now: Timestamp, n: int)
    requires data.playCount == Some(n)
    ensures NewGame(data, freshId, now).playCount == n
  {
  }

  /** `games.map(g => g.id === updated.id ? updated : g)` */
  function ReplaceGame(games: seq<Game>, updated: Game): (r: seq<Game>)
    ensures |r| == |games|
    ensures forall i | 0 <= i < |games| :: r[i] == (if games[i].id == updated.id then updated else games[i])
  {
    seq(|games|, i requires 0 <= i < |games| => if games[i].id == updated.id then updated else games[i])
  }

  /** Replacing a game whose id is not stored leaves the list as it was. */
  lemma ReplaceAbsentGameIsNoOp(games: seq<Game>, updated: Game)
    requires forall i | 0 <= i < |games| :: games[i].id != updated.id
    ensures ReplaceGame(games, updated) == games
  {
  }

  /** `games.map(g => g.id === id ? { ...g, playCount: g.playCount + 1 } : g)` */
  function PlayCountIncremented(games: seq<Game>, id: string): (r: seq<Game>)
    ensures |r| == |games|
    ensures forall i | 0 <= i < |games| && games[i].id != id :: r[i] == games[i]
    ensures forall i | 0 <= i < |games| && games[i].id == id ::
      r[i].playCount == games[i].playCount + 1 && r[i].(playCount := 0) == games[i].(playCount := 0)
  {
    seq(|games|, i requires 0 <= i < |games| =>
      if games[i].id == id then games[i].(playCount := games[i].playCount + 1) else games[i])
  }

  /** `games.map(g => g.id === id ? { ...g, lastPlayed: now } : g)` */
  function SetLastPlayed(games: seq<Game>, id: string, now: Timestamp): (r: seq<Game>)
    ensures |r| == |games|
    ensures forall i | 0 <= i < |games| && games[i].id != id :: r[i] == games[i]
    ensures forall i | 0 <= i < |games| && games[i].id == id ::
      r[i].lastPlayed == now && r[i].(lastPlayed := "") == games[i].(lastPlayed := "")
  {
    seq(|games|, i requires 0 <= i < |games| =>
      if games[i].id == id then games[i].(lastPlayed := now) else games[i])
  }

  /** A later `setLastPlayedDate` overwrites an earlier one: only the last clock value remains. */
  lemma LastPlayedOverwritten(games: seq<Game>, id: string, first: Timestamp, second: Timestamp)
    ensures SetLastPlayed(SetLastPlayed(games, id, first), id, second) == SetLastPlayed(games, id, second)
  {
    var a := SetLastPlayed(SetLastPlayed(games, id, first), id, second);
    var b := SetLastPlayed(games, id, second);
    forall i | 0 <= i < |games| ensures a[i] == b[i] {
      if games[i].id == id {
        assert a[i] == games[i].(lastPlayed := second);
      }
    }
  }

  /** `games.map(g => g.id === id ? { ...g, collectionIds } : g)` */
  function SetCollectionIds(games: seq<Game>, id: string, collectionIds: seq<string>): (r: seq<Game>)
    ensures |r| == |games|
    ensures forall i | 0 <= i < |games| && games[i].id != id :: r[i] == games[i]
    ensures forall i | 0 <= i < |games| && games[i].id == id ::
      r[i].collectionIds == collectionIds && r[i].(collectionIds := []) == games[i].(collectionIds := [])
  {
    seq(|games|, i requires 0 <= i < |games| =>
      if games[i].id == id then games[i].(collectionIds := collectionIds) else games[i])
  }

  /** `games.filter(g => g.id !== id)` */
  function WithoutGame(games: seq<Game>, id: string): seq<Game> {
    Filter(games, (g: Game) => g.id != id)
  }

  /**
   * Deleting removes every game with that id, keeps every other game, and keeps
   * the relative order of what remains.
   */
  lemma WithoutGameMeaning(games: seq<Game>, id: string)
    ensures forall g | g in WithoutGame(games, id) :: g.id != id
    ensures forall g | g in games && g.id != id :: g in WithoutGame(games, id)
    ensures forall g | g in WithoutGame(games, id) :: g in games
    ensures IsSubsequence(WithoutGame(games, id), games)
  {
    var keep := (g: Game) => g.id != id;
    forall g ensures g in Filter(games, keep) <==> g in games && keep(g) {
      FilterMembership(games, keep, g);
    }
    FilterIsSubsequence(games, keep);
  }

  // ---------------------------------------------------------------------
  // The repository

  class GameStore {
    const store: Store

    constructor (store: Store)
      ensures this.store == store
    {
      this.store := store;
    }

    /** `getGames()`: the stored list, or the empty list when nothing is stored. */
    function Games(): seq<Game>
      reads store
    {
      store.games.GetOr([])
    }

    method GetGames() returns (games: seq<Game>)
      ensures store.games.None? ==> games == []
      ensures store.games.Some? ==> games == store.games.value
    {
      games := Games();
    }

    method GetGame(id: string) returns (game: Option<Game>)
      ensures game.None? <==> forall g | g in Games() :: g.id != id
      ensures game.Some? ==> game.value in Games() && game.value.id == id
      ensures game == FirstGameWithId(Games(), id)
    {
      var games := GetGames();
      game := FirstGameWithId(games, id);
      FirstGameWithIdIsFirstMatch(games, id);
    }

    method CreateGame(data: GameData, freshId: string, now: Timestamp) returns (game: Option<Game>)
      modifies store
      ensures game.None? <==> Utf16Length(Trim(data.name)) < 2
      ensures game.None? ==> store.Contents() == old(store.Contents())
      ensures game.Some? ==> game.value == NewGame(data, freshId, now)
      ensures game.Some? ==> store.games == Some([game.value] + old(Games()))
      ensures store.collections == old(store.collections) && store.preferences == old(store.preferences)
    {
      var trimmed := Trim(data.name);
      if trimmed == "" || Utf16Length(trimmed) < 2 {
        return None;
      }
      var existing := GetGames();
      var g := NewGame(data, freshId, now);
      store.games := Some([g] + existing);
      game := Some(g);
    }

    method UpdateGame(updated: Game)
      modifies store
      ensures store.games == Some(ReplaceGame(old(Games()), updated))
      ensures store.collections == old(store.collections) && store.preferences == old(store.preferences)
    {
      var games := GetGames();
      store.games := Some(ReplaceGame(games, updated));
    }

    method IncrementPlayCount(id: string)
      modifies store
      ensures store.games == Some(PlayCountIncremented(old(Games()), id))
      ensures store.collections == old(store.collections) && store.preferences == old(store.preferences)
    {
      var games := GetGames();
      store.games := Some(PlayCountIncremented(games, id));
    }

    method SetLastPlayedDate(id: string, now: Timestamp)
      modifies store
      ensures store.games == Some(SetLastPlayed(old(Games()), id, now))
      ensures store.collections == old(store.collections) && store.preferences == old(store.preferences)
    {
      var games := GetGames();
      store.games := Some(SetLastPlayed(games, id, now));
    }

    method Delete(id: string)
      modifies store
      ensures store.games == Some(WithoutGame(old(Games()), id))
      ensures store.collections == old(store.collections) && store.preferences == old(store.preferences)
    {
      var games := GetGames();
      store.games := Some(WithoutGame(games, id));
    }

    method SetCollections(id: string, collectionIds: seq<string>)
      modifies store
      ensures store.games == Some(SetCollectionIds(old(Games()), id, collectionIds))
      ensures store.collections == old(store.collections) && store.preferences == old(store.preferences)
    {
      var games := GetGames();
      store.games := Some(SetCollectionIds(games, id, collectionIds));
    }
  }
}
