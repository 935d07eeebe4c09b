// The PIN pad of the login screen: one single-character box per character
// of the stored PIN, a verdict once the last box is filled, and a short
// animation after which a right PIN logs in and the pad is re-armed.
module PinBox {
  import opened Common
  import opened Records

  /** `isPinTrue`: `'checking'` until the last box is filled, then `true` or `false`. */
  datatype PinCheck = Checking | Verdict(right: bool)

  /** The pad as a value: what was typed, the stored PIN split into characters, the disabled boxes, the verdict. */
  datatype PadState = PadState(userInput: seq<string>, appPin: seq<string>, disabledList: seq<nat>, isPinTrue: PinCheck)

  /** `Array.prototype.join()` with its default separator. */
  function Join(parts: seq<string>): string
    decreases |parts|
  {
    if |parts| == 0 then ""
    else if |parts| == 1 then parts[0]
    else parts[0] + "," + Join(parts[1..])
  }

  /** `Array.from(pin)`: each character as a string of its own. */
  function Characters(pin: string): (r: seq<string>)
    ensures |r| == |pin|
    ensures forall i | 0 <= i < |r| :: r[i] == [pin[i]]
  {
    seq(|pin|, i requires 0 <= i < |pin| => [pin[i]])
  }

  /** The boxes hold at most one character each and the PIN exactly one per element. */
  predicate WellFormed(s: PadState) {
    |s.userInput| == |s.appPin|
    && (forall i | 0 <= i < |s.userInput| :: |s.userInput[i]| <= 1)
    && (forall i | 0 <= i < |s.appPin| :: |s.appPin[i]| == 1)
  }

  const InitialPad := PadState([], [], [], Checking)

  /** The stored record arrives: a non-empty PIN arms one empty box per character; otherwise nothing changes. */
  function Loaded(s: PadState, stored: Option<Preferences>): (r: PadState)
    ensures TextSet(PinCodeOf(stored)) ==>
      WellFormed(r) && |r.appPin| == |PinCodeOf(stored).value| > 0
      && (forall i | 0 <= i < |r.userInput| :: r.userInput[i] == "")
      && r.disabledList == s.disabledList && r.isPinTrue == s.isPinTrue
    ensures !TextSet(PinCodeOf(stored)) ==> r == s
  {
    if TextSet(PinCodeOf(stored)) then
      var pin := Characters(PinCodeOf(stored).value);
      s.(appPin := pin, userInput := seq(|pin|, _ => ""))
    else s
  }

  /**
   * `handleOnChange(char, index)`: an empty value is ignored; otherwise the
   * box is disabled and remembered, and filling the last box gives the
   * verdict. The text typed earlier stays in the other boxes.
   */
  function Changed(s: PadState, ch: string, index: nat): (r: PadState)
    requires |s.userInput| == |s.appPin| && index < |s.appPin|
    ensures |r.userInput| == |s.userInput| && r.appPin == s.appPin
    ensures ch == "" ==> r == s
    ensures ch != "" ==>
      r.userInput == s.userInput[index := ch] && r.disabledList == s.disabledList + [index]
      && (index != |s.appPin| - 1 ==> r.isPinTrue == s.isPinTrue)
  {
    if ch == "" then s
    else
      var input := s.userInput[index := ch];
      var verdict := if index == |s.appPin| - 1 then Verdict(Join(input) == Join(s.appPin)) else s.isPinTrue;
      s.(userInput := input, disabledList := s.disabledList + [index], isPinTrue := verdict)
  }

  /** A verdict disables every box while the animation runs. */
  function VerdictShown(s: PadState): (r: PadState)
    ensures s.isPinTrue.Verdict? ==> forall i :: 0 <= i < |s.appPin| ==> i in r.disabledList
    ensures s.isPinTrue.Checking? ==> r == s
  {
    if s.isPinTrue.Verdict? then
      var all := seq(|s.appPin|, i => i);
      EveryIndexListed(all);
      s.(disabledList := all)
    else s
  }

  /** A list holding each index at its own place holds every index below its length. */
  lemma EveryIndexListed(all: seq<nat>)
    requires forall i | 0 <= i < |all| :: all[i] == i
    ensures forall i | 0 <= i < |all| :: i in all
  {
    forall i | 0 <= i < |all| ensures i in all {
      assert all[i] == i;
    }
  }

  /** The end of the animation: log in on a right PIN, and re-arm the pad with no box disabled. */
  function AnimationDone(s: PadState): (PadState, bool) {
    (s.(isPinTrue := Checking, disabledList := []), s.isPinTrue == Verdict(true))
  }

  // ---------------------------------------------------------------------
  // What the pad promises

  lemma {:induction false} JoinOfSingles(p: seq<string>)
    requires |p| > 0 && forall i | 0 <= i < |p| :: |p[i]| == 1
    ensures |Join(p)| == 2 * |p| - 1
    decreases |p|
  {
    if |p| > 1 {
      JoinOfSingles(p[1..]);
    }
  }

  lemma {:induction false} JoinOfShort(u: seq<string>)
    requires |u| > 0 && forall i | 0 <= i < |u| :: |u[i]| <= 1
    ensures |Join(u)| <= 2 * |u| - 1
    decreases |u|
  {
    if |u| > 1 {
      JoinOfShort(u[1..]);
    }
  }

  /**
   * Comparing the joined texts is comparing box by box: with at most one
   * character per box the commas cannot line up differently.
   */
  lemma {:induction false} JoinEqualIffSame(u: seq<string>, p: seq<string>)
    requires |u| == |p|
    requires forall i | 0 <= i < |u| :: |u[i]| <= 1
    requires forall i | 0 <= i < |p| :: |p[i]| == 1
    ensures Join(u) == Join(p) <==> u == p
    decreases |u|
  {
    if |u| > 1 && Join(u) == Join(p) {
      JoinOfSingles(p[1..]);
      JoinOfShort(u[1..]);
      assert |u[0]| == 1;
      assert u[0] == Join(u)[..1] == p[0];
      assert Join(u[1..]) == Join(u)[2..] == Join(p[1..]);
      JoinEqualIffSame(u[1..], p[1..]);
      assert u == [u[0]] + u[1..];
      assert p == [p[0]] + p[1..];
    }
  }

  /** Typing keeps the pad well formed. */
  lemma ChangedKeepsWellFormed(s: PadState, ch: string, index: nat)
    requires WellFormed(s) && index < |s.appPin| && |ch| <= 1
    ensures WellFormed(Changed(s, ch, index))
  {
  }

  /** Filling the last box logs in exactly when every box holds the PIN's character at that place. */
  lemma LastBoxVerdict(s: PadState, ch: string)
    requires WellFormed(s) && |s.appPin| > 0 && |ch| == 1
    ensures var r := Changed(s, ch, |s.appPin| - 1);
      r.isPinTrue == Verdict(forall i | 0 <= i < |s.appPin| :: r.userInput[i] == s.appPin[i])
  {
    var r := Changed(s, ch, |s.appPin| - 1);
    JoinEqualIffSame(r.userInput, s.appPin);
    if forall i | 0 <= i < |s.appPin| :: r.userInput[i] == s.appPin[i] {
      assert r.userInput == s.appPin;
    }
  }

  /**
   * Typing `typed[0]`, `typed[1]`, ... into the boxes from the first on, each
   * through `handleOnChange`: the pad after the first k boxes.
   */
  function TypedInOrder(s: PadState, typed: seq<string>, k: nat): (r: PadState)
    requires |s.userInput| == |s.appPin| && k <= |s.appPin| && k <= |typed|
    ensures |r.userInput| == |s.userInput| && r.appPin == s.appPin
    decreases k
  {
    if k == 0 then s else Changed(TypedInOrder(s, typed, k - 1), typed[k - 1], k - 1)
  }

  /**
   * After k single characters the first k boxes hold them, the others are as
   * before, those k boxes are disabled in the order typed, and no verdict is
   * given before the last box.
   */
  lemma {:induction false} TypedInOrderMeaning(s: PadState, typed: seq<string>, k: nat)
    requires WellFormed(s) && |typed| == |s.appPin| && k <= |s.appPin|
    requires forall i | 0 <= i < |typed| :: |typed[i]| == 1
    ensures var r := TypedInOrder(s, typed, k);
      WellFormed(r)
      && r.userInput == typed[..k] + s.userInput[k..]
      && r.disabledList == s.disabledList + seq(k, i => i)
      && (k < |s.appPin| ==> r.isPinTrue == s.isPinTrue)
    decreases k
  {
    if k > 0 {
      TypedInOrderMeaning(s, typed, k - 1);
      var t := TypedInOrder(s, typed, k - 1);
      assert |typed[k - 1]| == 1;
      ChangedKeepsWellFormed(t, typed[k - 1], k - 1);
      var r := TypedInOrder(s, typed, k);
      assert r == Changed(t, typed[k - 1], k - 1);
      OneMoreTyped(typed, s.userInput, k);
      assert seq(k, i => i) == seq(k - 1, i => i) + [k - 1];
    }
  }

  /** Writing box k - 1 of a pad whose first k - 1 boxes are typed extends the typed prefix by one. */
  lemma OneMoreTyped(typed: seq<string>, before: seq<string>, k: nat)
    requires |typed| == |before| && 0 < k <= |typed|
    ensures (typed[..k - 1] + before[k - 1..])[k - 1 := typed[k - 1]] == typed[..k] + before[k..]
  {
    var u := (typed[..k - 1] + before[k - 1..])[k - 1 := typed[k - 1]];
    forall i | 0 <= i < |u| ensures u[i] == (typed[..k] + before[k..])[i] {
    }
  }

  /**
   * Typing a PIN of the stored length box by box into a freshly armed pad
   * fills every box, disables them in order, and logs in exactly when the
   * typed characters are the stored PIN's.
   */
  lemma RightPinLogsIn(stored: Preferences, typed: seq<string>)
    requires TextSet(PinCodeOf(Some(stored)))
    requires |typed| == |PinCodeOf(Some(stored)).value|
    requires forall i | 0 <= i < |typed| :: |typed[i]| == 1
    ensures var s := Loaded(InitialPad, Some(stored));
      var r := TypedInOrder(s, typed, |typed|);
      r.userInput == typed
      && r.disabledList == seq(|typed|, i => i)
      && r.isPinTrue == Verdict(typed == Characters(PinCodeOf(Some(stored)).value))
      && (AnimationDone(VerdictShown(r)).1 <==> typed == Characters(PinCodeOf(Some(stored)).value))
  {
    var s := Loaded(InitialPad, Some(stored));
    TypedAllBoxes(s, typed);
  }

  /** The same for any well-formed pad with a PIN: typing every box decides on the typed characters alone. */
  lemma TypedAllBoxes(s: PadState, typed: seq<string>)
    requires WellFormed(s) && |s.appPin| > 0 && |typed| == |s.appPin|
    requires forall i | 0 <= i < |typed| :: |typed[i]| == 1
    ensures var r := TypedInOrder(s, typed, |typed|);
      r.userInput == typed
      && r.disabledList == s.disabledList + seq(|typed|, i => i)
      && r.isPinTrue == Verdict(typed == s.appPin)
      && (AnimationDone(VerdictShown(r)).1 <==> typed == s.appPin)
  {
    var n := |typed|;
    TypedInOrderMeaning(s, typed, n - 1);
    TypedInOrderMeaning(s, typed, n);
    var t := TypedInOrder(s, typed, n - 1);
    LastBoxVerdict(t, typed[n - 1]);
    var r := TypedInOrder(s, typed, n);
    assert r == Changed(t, typed[n - 1], n - 1);
    assert typed[..n] + s.userInput[n..] == typed;
    if r.isPinTrue == Verdict(true) {
      assert forall i | 0 <= i < n :: r.userInput[i] == s.appPin[i];
      assert typed == s.appPin;
    }
  }

  /** A wrong character anywhere gives a `false` verdict and no login. */
  lemma WrongPinDoesNotLogIn(s: PadState, ch: string, i: nat)
    requires WellFormed(s) && |s.appPin| > 0 && |ch| == 1 && i < |s.appPin|
    requires s.userInput[|s.appPin| - 1 := ch][i] != s.appPin[i]
    ensures var r := Changed(s, ch, |s.appPin| - 1);
      r.isPinTrue == Verdict(false) && !AnimationDone(VerdictShown(r)).1
  {
    LastBoxVerdict(s, ch);
  }

  /**
   * After a verdict the boxes are re-armed but keep what was typed: after a
   * miss on the last character alone, typing the right one into the last box
   * logs in without the others being typed again.
   */
  lemma RetypedLastBoxAfterNearMiss(s: PadState, wrong: string)
    requires WellFormed(s) && |s.appPin| > 0 && |wrong| == 1 && wrong != s.appPin[|s.appPin| - 1]
    requires forall i | 0 <= i < |s.appPin| - 1 :: s.userInput[i] == s.appPin[i]
    ensures var n := |s.appPin|;
      var missed := Changed(s, wrong, n - 1);
      var rearmed := AnimationDone(VerdictShown(missed)).0;
      missed.isPinTrue == Verdict(false)
      && rearmed.disabledList == []
      && Changed(rearmed, s.appPin[n - 1], n - 1).isPinTrue == Verdict(true)
  {
    var n := |s.appPin|;
    var missed := Changed(s, wrong, n - 1);
    LastBoxVerdict(s, wrong);
    var rearmed := AnimationDone(VerdictShown(missed)).0;
    LastBoxVerdict(rearmed, s.appPin[n - 1]);
  }

  /** The pad: `userInput` is a module-level array the load replaces and each change writes one slot of. */
  class PinPad {
    var userInput: array<string>
    var appPin: seq<string>
    var disabledList: seq<nat>
    var isPinTrue: PinCheck

    function State(): PadState
      reads this, userInput
    {
      PadState(userInput[..], appPin, disabledList, isPinTrue)
    }

    constructor ()
      ensures State() == InitialPad
    {
      userInput := new string[0];
      appPin, disabledList, isPinTrue := [], [], Checking;
    }

    /** The first effect: the stored record, as the preferences store returned it. */
    method OnPreferencesLoaded(stored: Option<Preferences>)
      modifies this
      ensures State() == Loaded(old(State()), stored)
      ensures TextSet(PinCodeOf(stored)) ==> fresh(userInput)
      ensures !TextSet(PinCodeOf(stored)) ==> userInput == old(userInput)
    {
      if TextSet(PinCodeOf(stored)) {
        var pin := Characters(PinCodeOf(stored).value);
        appPin := pin;
        userInput := new string[|pin|](_ => "");
      }
    }

    /** `handleOnChange`, called by the box at `index`, which only an enabled box does. */
    method HandleOnChange(ch: string, index: nat)
      requires userInput.Length == |appPin| && index < |appPin| && index !in disabledList
      modifies this, userInput
      ensures userInput == old(userInput)
      ensures State() == Changed(old(State()), ch, index)
    {
      if ch == "" {
        return;
      }
      disabledList := disabledList + [index];
      userInput[index] := ch;
      if index == |appPin| - 1 {
        if Join(userInput[..]) != Join(appPin) {
          isPinTrue := Verdict(false);
        } else {
          isPinTrue := Verdict(true);
        }
      }
    }

    /** The second effect, on a new verdict. */
    method OnVerdict()
      modifies this
      ensures State() == VerdictShown(old(State()))
    {
      if isPinTrue.Verdict? {
        disabledList := seq(|appPin|, i => i);
      }
    }

    /** The animation's end: `login` says whether `onLogin` is called. */
    method OnAnimationDone() returns (login: bool)
      modifies this
      ensures (State(), login) == AnimationDone(old(State()))
    {
      login := isPinTrue == Verdict(true);
      isPinTrue := Checking;
      disabledList := [];
    }
  }
}
