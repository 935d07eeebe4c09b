// The preferences repository: one record under "user.preferences", written
// by a shallow merge of the stored record and the caller's object.
module PreferencesRepository {
  import opened Common
  import opened Records
  import opened RecordStore

  /**
   * `{ ...(stored || {}), ...patch }` as it is persisted: every key of the
   * patch overrides, and a key the patch sets to `undefined` disappears
   * when the record is written out as JSON.
   */
  function Merge(stored: Option<Preferences>, patch: PreferencesPatch): (r: Preferences)
    ensures forall k | k in patch && patch[k].Some? :: k in r && r[k] == patch[k].value
    ensures forall k | k in patch && patch[k].None? :: k !in r
    ensures forall k | k !in patch :: k in r <==> stored.Some? && k in stored.value
    ensures forall k | k !in patch && k in r :: r[k] == stored.value[k]
  {
    var base := stored.GetOr(map[]);
    map k | k in base.Keys + patch.Keys && !(k in patch && patch[k].None?) ::
      if k in patch then patch[k].value else base[k]
  }

  /** The keys the patch gives a value, with those values. */
  function PatchValues(patch: PreferencesPatch): Preferences {
    map k | k in patch && patch[k].Some? :: patch[k].value
  }

  /** With nothing stored, the record becomes exactly the patch's values. */
  lemma MergeIntoNothing(patch: PreferencesPatch)
    ensures Merge(None, patch) == PatchValues(patch)
  {
  }

  /** Writing the same patch twice equals writing it once. */
  lemma MergeIdempotent(stored: Option<Preferences>, patch: PreferencesPatch)
    ensures Merge(Some(Merge(stored, patch)), patch) == Merge(stored, patch)
  {
  }

  /** A merge of well-typed values is well typed. */
  lemma MergeWellTyped(stored: Option<Preferences>, patch: PreferencesPatch)
    requires stored.Some? ==> WellTyped(stored.value)
    requires PatchWellTyped(patch)
    ensures WellTyped(Merge(stored, patch))
  {
  }

  class UserPreferencesStore {
    const store: Store

    constructor (store: Store)
      ensures this.store == store
    {
      this.store := store;
    }

    /** `getUserPreferences()`: the stored record, or nothing. */
    method GetUserPreferences() returns (prefs: Option<Preferences>)
      ensures prefs == store.preferences
    {
      prefs := store.preferences;
    }

    method SetUserPreferences(patch: PreferencesPatch)
      modifies store
      ensures store.preferences == Some(Merge(old(store.preferences), patch))
      ensures store.games == old(store.games) && store.collections == old(store.collections)
    {
      var stored := GetUserPreferences();
      store.preferences := Some(Merge(stored, patch));
    }
  }
}
