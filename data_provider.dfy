// The collections the big-picture side panel shows: those holding at least
// one installed game.
module DataProvider {
  import opened Common
  import opened Records

  /** `new Set(games.filter(g => g.isInstalled).map(g => g.id))` */
  function InstalledGameIds(games: seq<Game>): set<string> {
    set g | g in games && g.isInstalled :: g.id
  }

  /** `c => c.gameIds.some(gid => installedGameIds.has(gid))` */
  function HasInstalledGame(ids: set<string>): Collection -> bool {
    (c: Collection) => exists i | 0 <= i < |c.gameIds| :: c.gameIds[i] in ids
  }

  /** `collectionsOnlyHasInstalledGames` */
  function CollectionsWithInstalledGames(collections: seq<Collection>, games: seq<Game>): seq<Collection> {
    Filter(collections, HasInstalledGame(InstalledGameIds(games)))
  }

  /**
   * The result keeps the collections' order, and a collection is in it
   * exactly when one of its ids names an installed game; a collection with
   * no ids, or with only ids of uninstalled or missing games, is dropped.
   */
  lemma CollectionsWithInstalledGamesMeaning(collections: seq<Collection>, games: seq<Game>)
    ensures IsSubsequence(CollectionsWithInstalledGames(collections, games), collections)
    ensures forall c :: c in CollectionsWithInstalledGames(collections, games) <==>
      c in collections && exists id, g | id in c.gameIds && g in games :: g.isInstalled && g.id == id
  {
    var keep := HasInstalledGame(InstalledGameIds(games));
    FilterIsSubsequence(collections, keep);
    forall c ensures c in CollectionsWithInstalledGames(collections, games) <==>
      c in collections && exists id, g | id in c.gameIds && g in games :: g.isInstalled && g.id == id
    {
      FilterMembership(collections, keep, c);
      if keep(c) {
        var i :| 0 <= i < |c.gameIds| && c.gameIds[i] in InstalledGameIds(games);
        var g :| g in games && g.isInstalled && g.id == c.gameIds[i];
        assert c.gameIds[i] in c.gameIds;
      }
      if exists id, g | id in c.gameIds && g in games :: g.isInstalled && g.id == id {
        var id, g :| id in c.gameIds && g in games && g.isInstalled && g.id == id;
        var i :| 0 <= i < |c.gameIds| && c.gameIds[i] == id;
        assert c.gameIds[i] in InstalledGameIds(games);
      }
    }
  }

  /** Two game lists with the same installed games give the same collections. */
  lemma OnlyInstalledGamesMatter(collections: seq<Collection>, games: seq<Game>, games2: seq<Game>)
    requires Filter(games, (g: Game) => g.isInstalled) == Filter(games2, (g: Game) => g.isInstalled)
    ensures CollectionsWithInstalledGames(collections, games) == CollectionsWithInstalledGames(collections, games2)
  {
    var installed := (g: Game) => g.isInstalled;
    forall id ensures id in InstalledGameIds(games) <==> id in InstalledGameIds(games2) {
      if id in InstalledGameIds(games) {
        var g :| g in games && g.isInstalled && g.id == id;
        FilterMembership(games, installed, g);
        FilterMembership(games2, installed, g);
      }
      if id in InstalledGameIds(games2) {
        var g :| g in games2 && g.isInstalled && g.id == id;
        FilterMembership(games, installed, g);
        FilterMembership(games2, installed, g);
      }
    }
    assert InstalledGameIds(games) == InstalledGameIds(games2);
  }
}
