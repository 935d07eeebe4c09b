// The single electron-store document shared by the three repositories. The
// main process keeps games under "games", collections under "collections"
// and the preferences record under the dotted path "user.preferences".
module RecordStore {
  import opened Common
  import opened Records

  const GamesKey := "games"
  const CollectionsKey := "collections"
  const PreferencesKey := "user.preferences"

  /** The whole store content; a key that was never written is `None`. */
  datatype Document = Document(
    games: Option<seq<Game>>,
    collections: Option<seq<Collection>>,
    preferences: Option<Preferences>)

  const EmptyDocument := Document(None, None, None)

  class Store {
    var games: Option<seq<Game>>
    var collections: Option<seq<Collection>>
    var preferences: Option<Preferences>

    constructor ()
      ensures Contents() == EmptyDocument
    {
      games, collections, preferences := None, None, None;
    }

    function Contents(): Document
      reads this
    {
      Document(games, collections, preferences)
    }

    /** `store.clear()`: every key is removed. */
    method Clear()
      modifies this
      ensures Contents() == EmptyDocument
    {
      games, collections, preferences := None, None, None;
    }

    /** `store.set(document)`: each top-level key present in `d` is written; the others stay. */
    method SetAll(d: Document)
      modifies this
      ensures games == (if d.games.Some? then d.games else old(games))
      ensures collections == (if d.collections.Some? then d.collections else old(collections))
      ensures preferences == (if d.preferences.Some? then d.preferences else old(preferences))
    {
      if d.games.Some? { games := d.games; }
      if d.collections.Some? { collections := d.collections; }
      if d.preferences.Some? { preferences := d.preferences; }
    }
  }
}
