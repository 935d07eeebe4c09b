// The collections repository. Like the games repository it rewrites the whole
// list on every mutation; `addGame` and `removeGamesFromCollection` also move
// the collection they change to the end of the list.
module CollectionRepository {
  import opened Common
  import opened Records
  import opened RecordStore

  // ---------------------------------------------------------------------
  // The list transformations

  predicate HasCollection(collections: seq<Collection>, id: string) {
    exists i | 0 <= i < |collections| :: collections[i].id == id
  }

  /** `existing.some(c => c.name.toLocaleLowerCase() === name.toLocaleLowerCase())` */
  predicate NameTaken(collections: seq<Collection>, name: string) {
    exists i | 0 <= i < |collections| :: ToLower(collections[i].name) == ToLower(name)
  }

  /** `existing.filter(c => c.id === id)[0]` */
  function FirstCollectionWithId(collections: seq<Collection>, id: string): Option<Collection> {
    FirstWhere(collections, (c: Collection) => c.id == id)
  }

  lemma FirstCollectionWithIdMeaning(collections: seq<Collection>, id: string)
    ensures FirstCollectionWithId(collections, id).Some? <==> HasCollection(collections, id)
    ensures FirstCollectionWithId(collections, id).Some? ==>
      FirstCollectionWithId(collections, id).value in collections
      && FirstCollectionWithId(collections, id).value.id == id
  {
    FirstWhereIsFirstMatch(collections, (c: Collection) => c.id == id);
  }

  /** `existing.filter(c => c.id !== id)` */
  function WithoutCollection(collections: seq<Collection>, id: string): seq<Collection> {
    Filter(collections, (c: Collection) => c.id != id)
  }

  /** Removing a collection removes every entry with that id and keeps the rest in order. */
  lemma WithoutCollectionMeaning(collections: seq<Collection>, id: string)
    ensures forall c | c in WithoutCollection(collections, id) :: c.id != id && c in collections
    ensures forall c | c in collections && c.id != id :: c in WithoutCollection(collections, id)
    ensures IsSubsequence(WithoutCollection(collections, id), collections)
  {
    var keep := (c: Collection) => c.id != id;
    forall c ensures c in Filter(collections, keep) <==> c in collections && keep(c) {
      FilterMembership(collections, keep, c);
    }
    FilterIsSubsequence(collections, keep);
  }

  /** `ids.filter(id => !removed.includes(id))` */
  function WithoutIds(ids: seq<string>, removed: seq<string>): seq<string> {
    Filter(ids, (id: string) => id !in removed)
  }

  /** The remaining ids are exactly the old ones not removed, in their old order. */
  lemma WithoutIdsMeaning(ids: seq<string>, removed: seq<string>)
    ensures forall id :: id in WithoutIds(ids, removed) <==> id in ids && id !in removed
    ensures IsSubsequence(WithoutIds(ids, removed), ids)
  {
    var keep := (id: string) => id !in removed;
    forall id ensures id in Filter(ids, keep) <==> id in ids && keep(id) {
      FilterMembership(ids, keep, id);
    }
    FilterIsSubsequence(ids, keep);
  }

  /** `ids.filter(id => id !== removed)` */
  function WithoutId(ids: seq<string>, removed: string): seq<string> {
    Filter(ids, (id: string) => id != removed)
  }

  lemma WithoutIdMeaning(ids: seq<string>, removed: string)
    ensures forall id :: id in WithoutId(ids, removed) <==> id in ids && id != removed
    ensures IsSubsequence(WithoutId(ids, removed), ids)
    ensures WithoutId(WithoutId(ids, removed), removed) == WithoutId(ids, removed)
  {
    var keep := (id: string) => id != removed;
    forall id ensures id in Filter(ids, keep) <==> id in ids && keep(id) {
      FilterMembership(ids, keep, id);
    }
    FilterIsSubsequence(ids, keep);
    FilterIdempotent(ids, keep);
  }

  /** Appending the removed id and then removing it leaves what removing it alone leaves. */
  lemma WithoutIdOfAppended(ids: seq<string>, removed: string)
    ensures WithoutId(ids + [removed], removed) == WithoutId(ids, removed)
  {
    var keep := (id: string) => id != removed;
    FilterAppend(ids, [removed], keep);
    assert Filter([removed], keep) == [];
  }

  /** `existing.map(c => c.id === id ? { ...c, gameIds } : c)` */
  function SetGameIds(collections: seq<Collection>, id: string, gameIds: seq<string>): (r: seq<Collection>)
    ensures |r| == |collections|
    ensures forall i | 0 <= i < |collections| && collections[i].id != id :: r[i] == collections[i]
    ensures forall i | 0 <= i < |collections| && collections[i].id == id ::
      r[i] == Collection(id, collections[i].name, gameIds)
  {
    seq(|collections|, i requires 0 <= i < |collections| =>
      if collections[i].id == id then collections[i].(gameIds := gameIds) else collections[i])
  }

  /** `existing.map(c => ({ ...c, gameIds: c.gameIds.filter(id => id !== gameId) }))` */
  function WithoutGameEverywhere(collections: seq<Collection>, gameId: string): (r: seq<Collection>)
    ensures |r| == |collections|
    ensures forall i | 0 <= i < |collections| ::
      r[i].id == collections[i].id && r[i].name == collections[i].name
      && r[i].gameIds == WithoutId(collections[i].gameIds, gameId)
  {
    seq(|collections|, i requires 0 <= i < |collections| =>
      collections[i].(gameIds := WithoutId(collections[i].gameIds, gameId)))
  }

  /**
   * After removing a game from all collections no collection refers to it,
   * every other reference survives, and a second removal changes nothing.
   */
  lemma WithoutGameEverywhereMeaning(collections: seq<Collection>, gameId: string)
    ensures forall i | 0 <= i < |collections| :: gameId !in WithoutGameEverywhere(collections, gameId)[i].gameIds
    ensures forall i, id | 0 <= i < |collections| && id in collections[i].gameIds && id != gameId ::
      id in WithoutGameEverywhere(collections, gameId)[i].gameIds
    ensures WithoutGameEverywhere(WithoutGameEverywhere(collections, gameId), gameId)
      == WithoutGameEverywhere(collections, gameId)
  {
    forall i | 0 <= i < |collections| {
      WithoutIdMeaning(collections[i].gameIds, gameId);
    }
  }

  /**
   * `{ id, name, gameIds: [] }` prepended, unless the trimmed name has fewer than
   * two UTF-16 code units or the name is already taken; `None` stands for `null`.
   */
  function CreatedCollections(collections: seq<Collection>, name: string, freshId: string): Option<seq<Collection>> {
    if Trim(name) == "" || Utf16Length(Trim(name)) < 2 then None
    else if NameTaken(collections, name) then None
    else Some([Collection(freshId, name, [])] + collections)
  }

  /**
   * Once a collection is created, a second name that lower-cases to the same
   * text is rejected, even when it differs from the first in letter case.
   */
  lemma CaseInsensitiveDuplicateRejected(collections: seq<Collection>, first: string, second: string, id1: string, id2: string)
    requires CreatedCollections(collections, first, id1).Some?
    requires ToLower(first) == ToLower(second)
    ensures CreatedCollections(CreatedCollections(collections, first, id1).value, second, id2).None?
  {
    var after := CreatedCollections(collections, first, id1).value;
    assert after[0].name == first;
  }

  /** `existing.filter(c => c.id === id)[0]` changed by `update` and pushed after the others. */
  function MovedLast(collections: seq<Collection>, id: string, update: Collection -> Collection): Option<seq<Collection>> {
    var found := FirstCollectionWithId(collections, id);
    if found.None? then None
    else Some(WithoutCollection(collections, found.value.id) + [update(found.value)])
  }

  /** The list `addGame` writes, or `None` when it would throw. */
  function WithGameAdded(collections: seq<Collection>, id: string, gameId: string): Option<seq<Collection>> {
    MovedLast(collections, id, (c: Collection) => c.(gameIds := c.gameIds + [gameId]))
  }

  /** The list `removeGamesFromCollection` writes, or `None` when it would throw. */
  function WithGamesRemoved(collections: seq<Collection>, id: string, gameIds: seq<string>): Option<seq<Collection>> {
    MovedLast(collections, id, (c: Collection) => c.(gameIds := WithoutIds(c.gameIds, gameIds)))
  }

  // ---------------------------------------------------------------------
  // The repository

  class CollectionStore {
    const store: Store

    constructor (store: Store)
      ensures this.store == store
    {
      this.store := store;
    }

    /** `getCollections()`: the stored list, or the empty list when nothing is stored. */
    function Collections(): seq<Collection>
      reads store
    {
      store.collections.GetOr([])
    }

    method GetCollections() returns (collections: seq<Collection>)
      ensures store.collections.None? ==> collections == []
      ensures store.collections.Some? ==> collections == store.collections.value
    {
      collections := Collections();
    }

    method CreateCollection(name: string, freshId: string) returns (created: Option<Collection>)
      modifies store
      ensures created.None? <==> Utf16Length(Trim(name)) < 2 || NameTaken(old(Collections()), name)
      ensures created.None? ==> store.Contents() == old(store.Contents())
      ensures created.Some? ==> created.value == Collection(freshId, name, [])
      ensures created.Some? ==> store.collections == Some([created.value] + old(Collections()))
      ensures created.Some? ==> store.collections == CreatedCollections(old(Collections()), name, freshId)
      ensures store.games == old(store.games) && store.preferences == old(store.preferences)
    {
      var trimmed := Trim(name);
      if trimmed == "" || Utf16Length(trimmed) < 2 {
        return None;
      }
      var collection := Collection(freshId, name, []);
      var existing := GetCollections();
      if NameTaken(existing, name) {
        return None;
      }
      store.collections := Some([collection] + existing);
      created := Some(collection);
    }

    /**
     * `addGame(collectionId, gameId)`. When no collection has that id the
     * source dereferences `undefined` and throws before writing: `ok` is
     * false and the store is unchanged.
     */
    method AddGame(collectionId: string, gameId: string) returns (ok: bool)
      modifies store
      ensures ok <==> HasCollection(old(Collections()), collectionId)
      ensures !ok ==> store.Contents() == old(store.Contents())
      ensures ok ==> store.collections == WithGameAdded(old(Collections()), collectionId, gameId)
      ensures store.games == old(store.games) && store.preferences == old(store.preferences)
    {
      var existing := GetCollections();
      var found := FirstCollectionWithId(existing, collectionId);
      FirstCollectionWithIdMeaning(existing, collectionId);
      if found.None? {
        return false;
      }
      var collection := found.value;
      var newCollection := collection.(gameIds := collection.gameIds + [gameId]);
      var updated := WithoutCollection(existing, collection.id);
      updated := updated + [newCollection];
      store.collections := Some(updated);
      ok := true;
    }

    method SetGames(collectionId: string, gameIds: seq<string>)
      modifies store
      ensures store.collections == Some(SetGameIds(old(Collections()), collectionId, gameIds))
      ensures store.games == old(store.games) && store.preferences == old(store.preferences)
    {
      var existing := GetCollections();
      store.collections := Some(SetGameIds(existing, collectionId, gameIds));
    }

    /** Like `AddGame`, a missing collection makes the source throw before writing. */
    method RemoveGamesFromCollection(collectionId: string, gameIds: seq<string>) returns (ok: bool)
      modifies store
      ensures ok <==> HasCollection(old(Collections()), collectionId)
      ensures !ok ==> store.Contents() == old(store.Contents())
      ensures ok ==> store.collections == WithGamesRemoved(old(Collections()), collectionId, gameIds)
      ensures store.games == old(store.games) && store.preferences == old(store.preferences)
    {
      var existing := GetCollections();
      var found := FirstCollectionWithId(existing, collectionId);
      FirstCollectionWithIdMeaning(existing, collectionId);
      if found.None? {
        return false;
      }
      var collection := found.value;
      var newCollection := collection.(gameIds := WithoutIds(collection.gameIds, gameIds));
      var updated := WithoutCollection(existing, collection.id);
      updated := updated + [newCollection];
      store.collections := Some(updated);
      ok := true;
    }

    method RemoveAGameFromAllCollections(gameId: string)
      modifies store
      ensures store.collections == Some(WithoutGameEverywhere(old(Collections()), gameId))
      ensures store.games == old(store.games) && store.preferences == old(store.preferences)
    {
      var existing := GetCollections();
      store.collections := Some(WithoutGameEverywhere(existing, gameId));
    }

    method Delete(id: string)
      modifies store
      ensures store.collections == Some(WithoutCollection(old(Collections()), id))
      ensures store.games == old(store.games) && store.preferences == old(store.preferences)
    {
      var existing := GetCollections();
      store.collections := Some(WithoutCollection(existing, id));
    }
  }

  // ---------------------------------------------------------------------
  // What the moving updates promise

  /**
   * `addGame` fails exactly when the collection is missing; otherwise it leaves
   * the changed collection last, holding its old game ids followed by the new
   * one (one more occurrence, even when the id was already there), and the
   * other collections before it in their old order.
   */
  lemma AddGameMeaning(collections: seq<Collection>, id: string, gameId: string)
    ensures WithGameAdded(collections, id, gameId).Some? <==> HasCollection(collections, id)
    ensures WithGameAdded(collections, id, gameId).Some? ==>
      var r := WithGameAdded(collections, id, gameId).value;
      var c := FirstCollectionWithId(collections, id).value;
      |r| > 0 && r[..|r| - 1] == WithoutCollection(collections, id)
      && r[|r| - 1] == Collection(id, c.name, c.gameIds + [gameId])
      && multiset(r[|r| - 1].gameIds)[gameId] == multiset(c.gameIds)[gameId] + 1
      && (forall i | 0 <= i < |r| - 1 :: r[i].id != id)
  {
    FirstCollectionWithIdMeaning(collections, id);
    WithoutCollectionMeaning(collections, id);
    if HasCollection(collections, id) {
      var r := WithGameAdded(collections, id, gameId).value;
      var w := WithoutCollection(collections, id);
      assert r[..|r| - 1] == w;
      forall i | 0 <= i < |w| ensures w[i].id != id {
        assert w[i] in w;
      }
    }
  }

  /**
   * `removeGamesFromCollection` leaves the target last, holding exactly its old
   * game ids minus the removed ones, in order.
   */
  lemma RemoveGamesMeaning(collections: seq<Collection>, id: string, gameIds: seq<string>)
    ensures WithGamesRemoved(collections, id, gameIds).Some? <==> HasCollection(collections, id)
    ensures WithGamesRemoved(collections, id, gameIds).Some? ==>
      var r := WithGamesRemoved(collections, id, gameIds).value;
      var c := FirstCollectionWithId(collections, id).value;
      |r| > 0 && r[..|r| - 1] == WithoutCollection(collections, id)
      && r[|r| - 1].id == id && r[|r| - 1].name == c.name
      && (forall g :: g in r[|r| - 1].gameIds <==> g in c.gameIds && g !in gameIds)
      && IsSubsequence(r[|r| - 1].gameIds, c.gameIds)
  {
    FirstCollectionWithIdMeaning(collections, id);
    if HasCollection(collections, id) {
      var r := WithGamesRemoved(collections, id, gameIds).value;
      var c := FirstCollectionWithId(collections, id).value;
      WithoutIdsMeaning(c.gameIds, gameIds);
      assert r[..|r| - 1] == WithoutCollection(collections, id);
    }
  }

  /**
   * Moving a collection to the end keeps the set of collection ids: those
   * are the ids the cascades in the renderer rely on.
   */
  lemma MovedLastKeepsIds(collections: seq<Collection>, id: string, update: Collection -> Collection, other: string)
    requires MovedLast(collections, id, update).Some?
    requires update(FirstCollectionWithId(collections, id).value).id == id
    ensures HasCollection(MovedLast(collections, id, update).value, other) <==> HasCollection(collections, other)
  {
    FirstCollectionWithIdMeaning(collections, id);
    WithoutCollectionMeaning(collections, id);
    var w := WithoutCollection(collections, id);
    var r := MovedLast(collections, id, update).value;
    assert r == w + [update(FirstCollectionWithId(collections, id).value)];
    if HasCollection(r, other) && other != id {
      var i :| 0 <= i < |r| && r[i].id == other;
      assert i < |w|;
      assert r[i] in w;
    }
    if HasCollection(collections, other) && other != id {
      var j :| 0 <= j < |collections| && collections[j].id == other;
      assert collections[j] in w;
      var i :| 0 <= i < |w| && w[i] == collections[j];
      assert r[i] == collections[j];
    }
    if other == id {
      assert r[|r| - 1].id == id;
    }
  }
}
