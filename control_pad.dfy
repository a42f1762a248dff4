/** The directional pad: six buttons, each tied to one fixed direction.
    Pressing an enabled button sends its direction at once, every time it
    is pressed; the only state is which button is shown as held. */
module ControlPad {
  import opened Commands

  /** The buttons, by their place on the pad (top row, middle row, bottom). */
  datatype Button = RotateLeftButton | ForwardButton | RotateRightButton | LeftButton | RightButton | BackwardButton

  /** The direction each button sends. */
  function ButtonDirection(b: Button): Direction
  {
    match b
    case RotateLeftButton => RotateLeft
    case ForwardButton => Forward
    case RotateRightButton => RotateRight
    case LeftButton => Left
    case RightButton => Right
    case BackwardButton => Backward
  }

  /** The table is one-to-one, and every direction except neutral has a button. */
  lemma ButtonTableIsBijective(b: Button, b': Button, d: Direction)
    ensures ButtonDirection(b) == ButtonDirection(b') ==> b == b'
    ensures ButtonDirection(b) != Neutral
    ensures d != Neutral ==> exists k :: ButtonDirection(k) == d
  {
    if d != Neutral {
      match d
      case RotateLeft => assert ButtonDirection(RotateLeftButton) == d;
      case Forward => assert ButtonDirection(ForwardButton) == d;
      case RotateRight => assert ButtonDirection(RotateRightButton) == d;
      case Left => assert ButtonDirection(LeftButton) == d;
      case Right => assert ButtonDirection(RightButton) == d;
      case Backward => assert ButtonDirection(BackwardButton) == d;
    }
  }

  /** The held-button marker: the direction of the held button, or none. */
  datatype PadState = PadState(activeButton: Option<Direction>)

  const Released := PadState(None)

  datatype Event =
    | Press(button: Button)        // touch-start or mouse-down on a button
    | Release                      // touch-end or mouse-up on a button
    | MouseLeave(button: Button)   // the pointer leaves a button

  function Step(s: PadState, ev: Event, disabled: bool): Outcome<PadState, Direction>
  {
    match ev
    case Press(b) =>
      if disabled then Outcome(s, None)
      else Outcome(PadState(Some(ButtonDirection(b))), Some(ButtonDirection(b)))
    case Release => Outcome(Released, None)
    case MouseLeave(b) =>
      if s.activeButton == Some(ButtonDirection(b)) then Outcome(Released, None) else Outcome(s, None)
  }

  function Run(s: PadState, evs: seq<Event>, disabled: bool): Trace<PadState, Direction>
    decreases |evs|
  {
    if evs == [] then Trace(s, [])
    else
      var o := Step(s, evs[0], disabled);
      var t := Run(o.state, evs[1..], disabled);
      Trace(t.state, Emitted(o.output) + t.outputs)
  }

  /** Pressing sends exactly the button's direction and marks it held,
      unless the pad is disabled, when nothing changes and nothing is sent. */
  lemma PressSendsItsDirection(s: PadState, b: Button, disabled: bool)
    ensures Step(s, Press(b), disabled) ==
      if disabled then Outcome(s, None)
      else Outcome(PadState(Some(ButtonDirection(b))), Some(ButtonDirection(b)))
  {
  }

  /** Release clears the marker and sends nothing. */
  lemma ReleaseClears(s: PadState, disabled: bool)
    ensures Step(s, Release, disabled) == Outcome(PadState(None), None)
  {
  }

  /** Leaving a button clears the marker only when that button is the held one. */
  lemma LeaveClearsOnlyHeld(s: PadState, b: Button, disabled: bool)
    ensures var o := Step(s, MouseLeave(b), disabled);
      o.output == None &&
      (o.state == Released <==> s.activeButton == Some(ButtonDirection(b)) || s == Released) &&
      (o.state != s ==> s.activeButton == Some(ButtonDirection(b)))
  {
  }

  /** The marker only ever holds a direction some button sends. */
  predicate Valid(s: PadState)
  {
    s.activeButton.Some? ==> exists b :: ButtonDirection(b) == s.activeButton.value
  }

  lemma {:induction false} RunKeepsValid(s: PadState, evs: seq<Event>, disabled: bool)
    requires Valid(s)
    ensures Valid(Run(s, evs, disabled).state)
    decreases |evs|
  {
    if evs != [] {
      var o := Step(s, evs[0], disabled);
      if evs[0].Press? && !disabled {
        assert ButtonDirection(evs[0].button) == o.state.activeButton.value;
      }
      RunKeepsValid(o.state, evs[1..], disabled);
    }
  }

  /** No debounce: an enabled pad sends one command per press, in order,
      whatever releases and leaves come in between. */
  function Presses(evs: seq<Event>): seq<Direction>
  {
    if evs == [] then []
    else (if evs[0].Press? then [ButtonDirection(evs[0].button)] else []) + Presses(evs[1..])
  }

  lemma {:induction false} EveryPressSends(s: PadState, evs: seq<Event>)
    ensures Run(s, evs, false).outputs == Presses(evs)
    decreases |evs|
  {
    if evs != [] {
      EveryPressSends(Step(s, evs[0], false).state, evs[1..]);
    }
  }

  /** A disabled pad sends nothing, whatever the events. */
  lemma {:induction false} DisabledPadIsSilent(s: PadState, evs: seq<Event>)
    ensures Run(s, evs, true).outputs == []
    decreases |evs|
  {
    if evs != [] {
      DisabledPadIsSilent(Step(s, evs[0], true).state, evs[1..]);
    }
  }

  /** The component: its one piece of state, set and cleared in place. */
  class Pad {
    var activeButton: Option<Direction>

    function State(): PadState
      reads this
    {
      PadState(activeButton)
    }

    constructor ()
      ensures State() == Released
    {
      activeButton := None;
    }

    method HandleButtonPress(b: Button, disabled: bool) returns (command: Option<Direction>)
      modifies this
      ensures Outcome(State(), command) == Step(old(State()), Press(b), disabled)
    {
      command := None;
      if disabled {
        return;
      }
      activeButton := Some(ButtonDirection(b));
      command := Some(ButtonDirection(b));
    }

    method HandleButtonRelease()
      modifies this
      ensures State() == Released
    {
      activeButton := None;
    }

    method HandleMouseLeave(b: Button)
      modifies this
      ensures Outcome(State(), None) == Step(old(State()), MouseLeave(b), false)
    {
      if activeButton == Some(ButtonDirection(b)) {
        HandleButtonRelease();
      }
    }
  }
}
