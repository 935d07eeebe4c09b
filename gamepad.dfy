// The big-picture screen's gamepad poller: a button fires on its rising edge
// only, the left stick fires once per push in a new direction, at most once
// every 100 ms, and the stick wins when both happen in one poll.
module Gamepad {
  import opened Common
  import opened FocusTree

  /** One entry of the pad's button list. */
  datatype GamepadButton = GamepadButton(name: string, pressed: bool)

  datatype Cardinal = Left | Right | Up | Down

  function CardinalName(c: Cardinal): string {
    match c
    case Left => "left"
    case Right => "right"
    case Up => "up"
    case Down => "down"
  }

  /**
   * The direction the stick points in, from the four cardinal tests made in
   * the order left, right, up, down; the first that holds wins.
   */
  function StickDirection(movedLeft: bool, movedRight: bool, movedUp: bool, movedDown: bool): (d: Option<Cardinal>)
    ensures d.None? <==> !movedLeft && !movedRight && !movedUp && !movedDown
    ensures d == Some(Left) <==> movedLeft
    ensures d == Some(Right) <==> !movedLeft && movedRight
    ensures d == Some(Up) <==> !movedLeft && !movedRight && movedUp
    ensures d == Some(Down) <==> !movedLeft && !movedRight && !movedUp && movedDown
  {
    if movedLeft then Some(Left)
    else if movedRight then Some(Right)
    else if movedUp then Some(Up)
    else if movedDown then Some(Down)
    else None
  }

  /** Button `i` is down now and was not down at the previous poll (a missing entry counts as up). */
  predicate RisingEdge(buttons: seq<GamepadButton>, prev: seq<bool>, i: nat)
    requires i < |buttons|
  {
    buttons[i].pressed && !(i < |prev| && prev[i])
  }

  /** `buttons.find(...)` from position `i` on: the position of the first rising edge. */
  function FirstRisingFrom(buttons: seq<GamepadButton>, prev: seq<bool>, i: nat): Option<nat>
    decreases |buttons| - i
  {
    if i >= |buttons| then None
    else if RisingEdge(buttons, prev, i) then Some(i)
    else FirstRisingFrom(buttons, prev, i + 1)
  }

  function FirstRising(buttons: seq<GamepadButton>, prev: seq<bool>): Option<nat> {
    FirstRisingFrom(buttons, prev, 0)
  }

  /** The search from `i` finds the first rising edge at or after `i`, and nothing when there is none. */
  lemma {:induction false} FirstRisingFromMeaning(buttons: seq<GamepadButton>, prev: seq<bool>, i: nat)
    ensures var r := FirstRisingFrom(buttons, prev, i);
      (r.None? <==> forall j | i <= j < |buttons| :: !RisingEdge(buttons, prev, j))
      && (r.Some? ==> i <= r.value < |buttons| && RisingEdge(buttons, prev, r.value)
                      && forall j | i <= j < r.value :: !RisingEdge(buttons, prev, j))
    decreases |buttons| - i
  {
    if i < |buttons| && !RisingEdge(buttons, prev, i) {
      FirstRisingFromMeaning(buttons, prev, i + 1);
    }
  }

  /** `buttons.map(b => b.pressed)` */
  function Pressed(buttons: seq<GamepadButton>): (r: seq<bool>)
    ensures |r| == |buttons|
    ensures forall i | 0 <= i < |buttons| :: r[i] == buttons[i].pressed
  {
    seq(|buttons|, i requires 0 <= i < |buttons| => buttons[i].pressed)
  }

  /** What the poller remembers between polls. */
  datatype PollState = PollState(prevButtons: seq<bool>, prevStick: Option<Cardinal>, lastStickTime: int)

  /** The stick fires on a direction that differs from the remembered one, more than 100 ms after the last firing. */
  predicate StickFires(s: PollState, dir: Option<Cardinal>, now: int) {
    dir.Some? && dir != s.prevStick && now - s.lastStickTime > 100
  }

  /**
   * One poll: the new memory and the signal it sets, if any. When a button
   * and the stick both fire, the stick's signal is the one set last and so
   * the one the dispatcher sees.
   */
  function Poll(s: PollState, buttons: seq<GamepadButton>, dir: Option<Cardinal>, now: int): (PollState, Option<KeyOrButton>) {
    var pressed := FirstRising(buttons, s.prevButtons);
    var fires := StickFires(s, dir, now);
    var signal :=
      if fires then Some(StickMove(CardinalName(dir.value)))
      else if pressed.Some? && pressed.value < |buttons| then Some(ButtonPress(buttons[pressed.value].name))
      else None;
    var prevStick := if fires then dir else if dir.None? then None else s.prevStick;
    (PollState(Pressed(buttons), prevStick, if fires then now else s.lastStickTime), signal)
  }

  // ---------------------------------------------------------------------
  // What the poller promises

  /**
   * Without a stick firing, the signal is the first button that went down
   * since the previous poll, and there is none exactly when no button did.
   */
  lemma ButtonSignal(s: PollState, buttons: seq<GamepadButton>, dir: Option<Cardinal>, now: int)
    requires !StickFires(s, dir, now)
    ensures var signal := Poll(s, buttons, dir, now).1;
      (signal.None? <==> forall j | 0 <= j < |buttons| :: !RisingEdge(buttons, s.prevButtons, j))
      && (signal.Some? ==> exists i | 0 <= i < |buttons| ::
            signal == Some(ButtonPress(buttons[i].name)) && RisingEdge(buttons, s.prevButtons, i)
            && forall j | 0 <= j < i :: !RisingEdge(buttons, s.prevButtons, j))
  {
    FirstRisingFromMeaning(buttons, s.prevButtons, 0);
  }

  /** A button held down over two polls fires at most at the first of them. */
  lemma HeldButtonDoesNotRefire(s: PollState, buttons: seq<GamepadButton>, dir: Option<Cardinal>, now: int,
                                dir2: Option<Cardinal>, now2: int)
    ensures var s2 := Poll(s, buttons, dir, now).0;
      FirstRising(buttons, s2.prevButtons) == None
      && (Poll(s2, buttons, dir2, now2).1.None? || Poll(s2, buttons, dir2, now2).1 == Some(StickMove(CardinalName(dir2.value))))
  {
    var s2 := Poll(s, buttons, dir, now).0;
    FirstRisingFromMeaning(buttons, s2.prevButtons, 0);
  }

  /** The stick held in the direction it fired in stays silent. */
  lemma HeldStickDoesNotRefire(s: PollState, buttons: seq<GamepadButton>, d: Cardinal, now: int, now2: int)
    requires StickFires(s, Some(d), now)
    ensures var s2 := Poll(s, buttons, Some(d), now).0;
      s2.prevStick == Some(d) && s2.lastStickTime == now && !StickFires(s2, Some(d), now2)
  {
  }

  /** Back in the middle, the stick forgets its direction, so the same push fires again once 100 ms have passed. */
  lemma NeutralRearmsStick(s: PollState, buttons: seq<GamepadButton>, now: int, d: Cardinal, now2: int,
                           buttons2: seq<GamepadButton>)
    requires now2 - s.lastStickTime > 100
    ensures var s2 := Poll(s, buttons, None, now).0;
      s2.prevStick == None && Poll(s2, buttons2, Some(d), now2).1 == Some(StickMove(CardinalName(d)))
  {
  }

  /**
   * A new direction pushed within 100 ms of the last firing is not lost:
   * the remembered direction is left alone, so holding it fires it later.
   */
  lemma DebouncedPushFiresLater(s: PollState, buttons: seq<GamepadButton>, d: Cardinal, now: int,
                                buttons2: seq<GamepadButton>, now2: int)
    requires Some(d) != s.prevStick && now - s.lastStickTime <= 100 && now2 - s.lastStickTime > 100
    ensures var s2 := Poll(s, buttons, Some(d), now).0;
      !StickFires(s, Some(d), now) && s2.prevStick == s.prevStick
      && Poll(s2, buttons2, Some(d), now2).1 == Some(StickMove(CardinalName(d)))
  {
  }

  /** Two stick firings in a row are more than 100 ms apart. */
  lemma StickFiringsSpaced(s: PollState, buttons: seq<GamepadButton>, dir: Option<Cardinal>, now: int,
                           dir2: Option<Cardinal>, now2: int)
    requires StickFires(s, dir, now)
    requires StickFires(Poll(s, buttons, dir, now).0, dir2, now2)
    ensures now2 - now > 100 && dir2 != dir
  {
  }

  // ---------------------------------------------------------------------
  // The poller's refs

  class GamepadPoller {
    var prevButtons: seq<bool>
    var prevStick: Option<Cardinal>
    var lastStickTime: int

    function State(): PollState
      reads this
    {
      PollState(prevButtons, prevStick, lastStickTime)
    }

    constructor()
      ensures State() == PollState([], None, 0)
    {
      prevButtons := [];
      prevStick := None;
      lastStickTime := 0;
    }

    /** The effect that runs on every change of the pad's buttons or stick. */
    method OnPadChange(buttons: seq<GamepadButton>, dir: Option<Cardinal>, now: int) returns (signal: Option<KeyOrButton>)
      modifies this
      ensures (State(), signal) == Poll(old(State()), buttons, dir, now)
    {
      var pressed := FirstRising(buttons, prevButtons);
      signal := None;
      if pressed.Some? && pressed.value < |buttons| {
        signal := Some(ButtonPress(buttons[pressed.value].name));
      }
      if dir.Some? && dir != prevStick && now - lastStickTime > 100 {
        signal := Some(StickMove(CardinalName(dir.value)));
        lastStickTime := now;
        prevStick := dir;
      }
      if dir.None? {
        prevStick := None;
      }
      prevButtons := Pressed(buttons);
    }
  }
}
