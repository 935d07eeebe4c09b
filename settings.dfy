// The PIN part of the settings page: creating a PIN, changing it, and which
// of the two forms is on screen.
module Settings {
  import opened Common
  import opened Records
  import opened RecordStore
  import opened PreferencesRepository
  import Login

  /**
   * A PIN the create and update forms accept: no space character (other
   * blanks pass), the same text typed twice, and a `length` of 6 to 10
   * UTF-16 code units.
   */
  predicate PinAcceptable(pin: string, verify: string) {
    ' ' !in pin && pin == verify && 5 < Utf16Length(pin) < 11
  }

  /** The update form also needs the present PIN, equal to the stored one. */
  predicate PinUpdateAcceptable(oldPin: string, newPin: string, verify: string, storedPin: Option<string>) {
    PinAcceptable(newPin, verify) && storedPin == Some(oldPin)
  }

  /** The write of a created PIN: the PIN, and PIN login switched on. */
  function CreatePinPatch(pin: string): PreferencesPatch {
    map[PinCode := Some(TextValue(pin)), LoginWithPin := Some(BoolValue(true))]
  }

  /** The write of an updated PIN: the PIN alone. */
  function UpdatePinPatch(pin: string): PreferencesPatch {
    map[PinCode := Some(TextValue(pin))]
  }

  /**
   * The space is the only character that is refused: in an acceptable PIN
   * any character can stand in for another of the same UTF-16 width.
   */
  lemma OnlySpaceIsRefused(pin: string, i: nat, c: char)
    requires PinAcceptable(pin, pin) && i < |pin|
    requires Utf16Units(c) == Utf16Units(pin[i])
    ensures PinAcceptable(pin[i := c], pin[i := c]) <==> c != ' '
  {
    Utf16LengthUpdate(pin, i, c);
    assert pin[i := c][i] == c;
    var changed := pin[i := c];
    if c != ' ' {
      forall j | 0 <= j < |changed| ensures changed[j] != ' ' {
        if j != i { assert changed[j] == pin[j]; }
      }
    }
  }

  /** Six to ten digits pass, and so does a tab; five or eleven digits do not. */
  lemma PinLengthExamples()
    ensures PinAcceptable("\t12345", "\t12345")
    ensures !PinAcceptable("12345", "12345") && PinAcceptable("1234567890", "1234567890")
    ensures !PinAcceptable("12345678901", "12345678901")
  {
    BasicPlaneLength("\t12345");
    BasicPlaneLength("12345");
    BasicPlaneLength("1234567890");
  }

  /** Three emoji make a PIN of length six, and two a PIN too short. */
  lemma EmojiPinLength()
    ensures PinAcceptable("\U{1F600}\U{1F600}\U{1F600}", "\U{1F600}\U{1F600}\U{1F600}")
    ensures !PinAcceptable("\U{1F600}\U{1F600}", "\U{1F600}\U{1F600}")
  {
    var emoji := "\U{1F600}\U{1F600}\U{1F600}";
    assert Utf16Length(emoji[2..]) == 2;
    assert Utf16Length(emoji[1..]) == 4;
  }

  /** A PIN of decimal digits and tabs has one code unit per character. */
  lemma BasicPlaneLength(pin: string)
    requires forall i | 0 <= i < |pin| :: pin[i] == '\t' || '0' <= pin[i] <= '9'
    ensures Utf16Length(pin) == |pin|
  {
  }

  /**
   * A created PIN is stored with PIN login on: at the next start the app asks
   * for it, whatever else the record held.
   */
  lemma CreatedPinIsAskedAtStartup(stored: Option<Preferences>, pin: string, verify: string)
    requires PinAcceptable(pin, verify)
    ensures var after := Some(Merge(stored, CreatePinPatch(pin)));
      PinCodeOf(after) == Some(pin) && Login.PinLoginSetUp(after)
  {
  }

  /** An updated PIN replaces the stored one and leaves every other key as it was. */
  lemma UpdatedPinKeepsTheRest(stored: Preferences, pin: string)
    ensures var after := Merge(Some(stored), UpdatePinPatch(pin));
      PinCodeOf(Some(after)) == Some(pin)
      && forall k | k != PinCode :: (k in after <==> k in stored) && (k in after ==> after[k] == stored[k])
  {
  }

  /** `PinCreateGroup` renders: no PIN created on this page yet, PIN login on, and no PIN stored. */
  predicate ShowsCreateGroup(pinCreateSuccess: bool, loginWithPin: bool, existingPinCode: Option<string>) {
    !pinCreateSuccess && loginWithPin && !TextSet(existingPinCode)
  }

  /** `PinUpdateGroup` renders: PIN login on, and a PIN stored or just created. */
  predicate ShowsUpdateGroup(loginWithPin: bool, existingPinCode: Option<string>, pinCreateSuccess: bool) {
    (loginWithPin && TextSet(existingPinCode)) || (loginWithPin && pinCreateSuccess)
  }

  /**
   * The two forms are never on screen together; with PIN login on exactly
   * one of them is, and with it off neither is.
   */
  lemma GroupsExclusive(pinCreateSuccess: bool, loginWithPin: bool, existingPinCode: Option<string>)
    ensures !(ShowsCreateGroup(pinCreateSuccess, loginWithPin, existingPinCode)
              && ShowsUpdateGroup(loginWithPin, existingPinCode, pinCreateSuccess))
    ensures loginWithPin <==>
      ShowsCreateGroup(pinCreateSuccess, loginWithPin, existingPinCode)
      || ShowsUpdateGroup(loginWithPin, existingPinCode, pinCreateSuccess)
  {
  }

  /** The page's PIN state and the texts typed into its fields. */
  class PinSettings {
    var pinCreateError: bool
    var pinCreateSuccess: bool
    var pinUpdateError: bool
    var pinCode: string
    var verifyPinCode: string
    var oldPinCode: string
    var newPinCode: string
    var verifyNewPinCode: string

    constructor ()
      ensures !pinCreateError && !pinCreateSuccess && !pinUpdateError
      ensures pinCode == verifyPinCode == oldPinCode == newPinCode == verifyNewPinCode == ""
    {
      pinCreateError, pinCreateSuccess, pinUpdateError := false, false, false;
      pinCode, verifyPinCode, oldPinCode, newPinCode, verifyNewPinCode := "", "", "", "", "";
    }

    /**
     * `handleSavePin`: an acceptable PIN is written with PIN login on and the
     * form reports success; any other leaves the store alone and reports the
     * error.
     */
    method HandleSavePin(prefs: UserPreferencesStore)
      modifies this, prefs.store
      ensures PinAcceptable(pinCode, verifyPinCode) ==>
        !pinCreateError && pinCreateSuccess
        && prefs.store.preferences == Some(Merge(old(prefs.store.preferences), CreatePinPatch(pinCode)))
      ensures !PinAcceptable(pinCode, verifyPinCode) ==>
        pinCreateError && pinCreateSuccess == old(pinCreateSuccess)
        && prefs.store.preferences == old(prefs.store.preferences)
      ensures prefs.store.games == old(prefs.store.games) && prefs.store.collections == old(prefs.store.collections)
      ensures pinUpdateError == old(pinUpdateError)
      ensures pinCode == old(pinCode) && verifyPinCode == old(verifyPinCode) && oldPinCode == old(oldPinCode)
      ensures newPinCode == old(newPinCode) && verifyNewPinCode == old(verifyNewPinCode)
    {
      if ' ' !in pinCode && pinCode == verifyPinCode && Utf16Length(pinCode) > 5 && Utf16Length(pinCode) < 11 {
        pinCreateError := false;
        pinCreateSuccess := true;
        prefs.SetUserPreferences(CreatePinPatch(pinCode));
      } else {
        pinCreateError := true;
      }
    }

    /**
     * `handleSaveNewPin`: `contextPrefs` is the record the app context
     * fetched at start-up, whose PIN the present one must equal.
     */
    method HandleSaveNewPin(prefs: UserPreferencesStore, contextPrefs: Option<Preferences>)
      modifies this, prefs.store
      ensures PinUpdateAcceptable(oldPinCode, newPinCode, verifyNewPinCode, PinCodeOf(contextPrefs)) ==>
        !pinUpdateError
        && prefs.store.preferences == Some(Merge(old(prefs.store.preferences), UpdatePinPatch(newPinCode)))
      ensures !PinUpdateAcceptable(oldPinCode, newPinCode, verifyNewPinCode, PinCodeOf(contextPrefs)) ==>
        pinUpdateError && prefs.store.preferences == old(prefs.store.preferences)
      ensures prefs.store.games == old(prefs.store.games) && prefs.store.collections == old(prefs.store.collections)
      ensures pinCreateError == old(pinCreateError) && pinCreateSuccess == old(pinCreateSuccess)
      ensures pinCode == old(pinCode) && verifyPinCode == old(verifyPinCode) && oldPinCode == old(oldPinCode)
      ensures newPinCode == old(newPinCode) && verifyNewPinCode == old(verifyNewPinCode)
    {
      if ' ' !in newPinCode && Some(oldPinCode) == PinCodeOf(contextPrefs) && newPinCode == verifyNewPinCode
         && Utf16Length(newPinCode) > 5 && Utf16Length(newPinCode) < 11 {
        pinUpdateError := false;
        prefs.SetUserPreferences(UpdatePinPatch(newPinCode));
      } else {
        pinUpdateError := true;
      }
    }
  }
}
