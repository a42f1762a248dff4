/** The axis sliders: three range inputs over [0, 100] centred at 50 (left
    and right, forward and backward, rotation).  A value more than 10 away
    from the centre selects one of its channel's two directions.  All three
    channels share ONE remembered direction, `lastDirection`, which decides
    both when a command is sent and when the memory is silently cleared. */
module Sliders {
  import opened Commands

  /** Deviation from the centre at or under which a slider is neutral. */
  const MovementThreshold := 10
  const Middle := 50

  datatype Channel = XAxis | YAxis | Rotation

  /** The direction a channel selects below the centre. */
  function Low(c: Channel): Direction
  {
    match c
    case XAxis => Left
    case YAxis => Forward
    case Rotation => RotateLeft
  }

  /** The direction a channel selects above the centre. */
  function High(c: Channel): Direction
  {
    match c
    case XAxis => Right
    case YAxis => Backward
    case Rotation => RotateRight
  }

  /** `d` is one of the two directions of channel `c`. */
  predicate Owns(c: Channel, d: Direction)
  {
    d == Low(c) || d == High(c)
  }

  /** The six directions split into three disjoint pairs, none neutral. */
  lemma ChannelsPartitionDirections(c: Channel, c': Channel, d: Direction)
    ensures !Owns(c, Neutral)
    ensures Owns(c, d) && Owns(c', d) ==> c == c'
    ensures d != Neutral ==> exists k :: Owns(k, d)
  {
    if d != Neutral {
      match d
      case Left => assert Owns(XAxis, d);
      case Right => assert Owns(XAxis, d);
      case Forward => assert Owns(YAxis, d);
      case Backward => assert Owns(YAxis, d);
      case RotateLeft => assert Owns(Rotation, d);
      case RotateRight => assert Owns(Rotation, d);
    }
  }

  /** The direction a slider value selects: neutral in the band [40, 60],
      the channel's low direction under it and its high direction over it. */
  function Classify(c: Channel, v: int): (d: Direction)
    ensures d == Neutral <==> 40 <= v <= 60
    ensures d == Low(c) <==> v < 40
    ensures d == High(c) <==> v > 60
  {
    if Abs(v - Middle) > MovementThreshold then (if v < Middle then Low(c) else High(c))
    else Neutral
  }

  datatype SliderState = SliderState(xValue: int, yValue: int, rotationValue: int, lastDirection: Direction)

  const Centred := SliderState(Middle, Middle, Middle, Neutral)

  function Value(s: SliderState, c: Channel): int
  {
    match c
    case XAxis => s.xValue
    case YAxis => s.yValue
    case Rotation => s.rotationValue
  }

  function WithValue(s: SliderState, c: Channel, v: int): (r: SliderState)
    ensures Value(r, c) == v && r.lastDirection == s.lastDirection
    ensures forall k :: k != c ==> Value(r, k) == Value(s, k)
  {
    match c
    case XAxis => s.(xValue := v)
    case YAxis => s.(yValue := v)
    case Rotation => s.(rotationValue := v)
  }

  /** A change handler: store the value, then send the channel's direction
      if it differs from the shared memory, or clear the memory if the
      slider is back in the band and the memory holds this channel's
      direction. */
  function Change(s: SliderState, c: Channel, v: int, disabled: bool): Outcome<SliderState, Direction>
  {
    if disabled then Outcome(s, None)
    else
      var moved := WithValue(s, c, v);
      var d := Classify(c, v);
      if d != Neutral && d != s.lastDirection then Outcome(moved.(lastDirection := d), Some(d))
      else if d == Neutral && Owns(c, s.lastDirection) then Outcome(moved.(lastDirection := Neutral), None)
      else Outcome(moved, None)
  }

  datatype Event = ValueChange(channel: Channel, value: int) | ResetPressed

  function Step(s: SliderState, ev: Event, disabled: bool): Outcome<SliderState, Direction>
  {
    match ev
    case ValueChange(c, v) => Change(s, c, v, disabled)
    case ResetPressed => Outcome(Centred, None)
  }

  function Run(s: SliderState, evs: seq<Event>, disabled: bool): Trace<SliderState, Direction>
    decreases |evs|
  {
    if evs == [] then Trace(s, [])
    else
      var o := Step(s, evs[0], disabled);
      var t := Run(o.state, evs[1..], disabled);
      Trace(t.state, Emitted(o.output) + t.outputs)
  }

  /** A change sends exactly the new classification, once, when it is
      non-neutral and differs from the shared memory; the memory then holds
      what was sent. */
  lemma ChangeSendsNewDirection(s: SliderState, c: Channel, v: int)
    ensures var o := Change(s, c, v, false);
      (o.output.Some? <==> Classify(c, v) != Neutral && Classify(c, v) != s.lastDirection) &&
      (o.output.Some? ==> o.output.value == Classify(c, v) && o.state.lastDirection == Classify(c, v))
  {
  }

  /** Back in the band, the memory is cleared only when it holds one of
      this channel's directions; a direction set by another channel stays. */
  lemma NeutralClearsOnlyOwnDirection(s: SliderState, c: Channel, v: int)
    requires 40 <= v <= 60
    ensures var o := Change(s, c, v, false);
      o.output == None &&
      o.state.lastDirection == (if Owns(c, s.lastDirection) then Neutral else s.lastDirection)
  {
  }

  /** A change handler stores its own value and touches no other slider. */
  lemma ChangeTouchesOwnChannel(s: SliderState, c: Channel, v: int)
    ensures Value(Change(s, c, v, false).state, c) == v
    ensures forall k :: k != c ==> Value(Change(s, c, v, false).state, k) == Value(s, k)
  {
  }

  /** While disabled, change handlers change nothing and send nothing. */
  lemma DisabledChangeIsInert(s: SliderState, c: Channel, v: int)
    ensures Change(s, c, v, true) == Outcome(s, None)
  {
  }

  /** Reset centres all three sliders, clears the memory, sends nothing. */
  lemma ResetCentres(s: SliderState, disabled: bool)
    ensures Step(s, ResetPressed, disabled) == Outcome(SliderState(50, 50, 50, Neutral), None)
  {
  }

  /** Repeating a change with the same value sends nothing the second time. */
  lemma RepeatedChangeIsSilent(s: SliderState, ev: Event, disabled: bool)
    ensures var s' := Step(s, ev, disabled).state;
      Step(s', ev, disabled) == Outcome(s', None)
  {
  }

  /** The shared memory always agrees with the slider that owns the
      direction it holds: if it holds a direction of channel `c`, then
      slider `c` currently selects exactly that direction. */
  predicate Coherent(s: SliderState)
  {
    forall c :: Owns(c, s.lastDirection) ==> Classify(c, Value(s, c)) == s.lastDirection
  }

  lemma StepKeepsCoherent(s: SliderState, ev: Event, disabled: bool)
    requires Coherent(s)
    ensures Coherent(Step(s, ev, disabled).state)
  {
    if ev.ValueChange? && !disabled {
      var s' := Step(s, ev, disabled).state;
      forall k | Owns(k, s'.lastDirection)
        ensures Classify(k, Value(s', k)) == s'.lastDirection
      {
        ChannelsPartitionDirections(k, ev.channel, s'.lastDirection);
        ChannelsPartitionDirections(k, ev.channel, s.lastDirection);
      }
    }
  }

  lemma {:induction false} RunKeepsCoherent(s: SliderState, evs: seq<Event>, disabled: bool)
    requires Coherent(s)
    ensures Coherent(Run(s, evs, disabled).state)
    decreases |evs|
  {
    if evs != [] {
      StepKeepsCoherent(s, evs[0], disabled);
      RunKeepsCoherent(Step(s, evs[0], disabled).state, evs[1..], disabled);
    }
  }

  /** Every command a run sends is a non-neutral direction. */
  lemma {:induction false} RunSendsNoNeutral(s: SliderState, evs: seq<Event>, disabled: bool)
    ensures Neutral !in Run(s, evs, disabled).outputs
    decreases |evs|
  {
    if evs != [] {
      RunSendsNoNeutral(Step(s, evs[0], disabled).state, evs[1..], disabled);
    }
  }

  /** The forward/backward slider moved 50 -> 80 -> 85 -> 50 -> 20 sends
      `backward`, nothing, nothing, then `forward`. */
  lemma ForwardBackwardTrace()
    ensures Run(Centred, [ValueChange(YAxis, 80), ValueChange(YAxis, 85), ValueChange(YAxis, 50), ValueChange(YAxis, 20)], false)
         == Trace(SliderState(50, 20, 50, Forward), [Backward, Forward])
  {
    var evs := [ValueChange(YAxis, 80), ValueChange(YAxis, 85), ValueChange(YAxis, 50), ValueChange(YAxis, 20)];
    var s1 := SliderState(50, 80, 50, Backward);
    var s2 := SliderState(50, 85, 50, Backward);
    var s3 := SliderState(50, 50, 50, Neutral);
    var s4 := SliderState(50, 20, 50, Forward);
    assert Step(Centred, evs[0], false) == Outcome(s1, Some(Backward));
    assert Step(s1, evs[1], false) == Outcome(s2, None);
    assert Step(s2, evs[2], false) == Outcome(s3, None);
    assert Step(s3, evs[3], false) == Outcome(s4, Some(Forward));
    assert Run(s3, evs[3..], false) == Trace(s4, [Forward]);
    assert Run(s2, evs[2..], false) == Trace(s4, [Forward]);
    assert Run(s1, evs[1..], false) == Trace(s4, [Forward]);
  }

  /** Because the memory is shared, a slider whose own classification has
      not changed sends its direction again after another slider sent one:
      X to 80 sends `right`, Y to 80 sends `backward`, X to 85 sends `right`
      once more. */
  lemma SharedMemoryResends()
    ensures Run(Centred, [ValueChange(XAxis, 80), ValueChange(YAxis, 80), ValueChange(XAxis, 85)], false).outputs
         == [Right, Backward, Right]
  {
    var evs := [ValueChange(XAxis, 80), ValueChange(YAxis, 80), ValueChange(XAxis, 85)];
    var s1 := SliderState(80, 50, 50, Right);
    var s2 := SliderState(80, 80, 50, Backward);
    var s3 := SliderState(85, 80, 50, Right);
    assert Step(Centred, evs[0], false) == Outcome(s1, Some(Right));
    assert Step(s1, evs[1], false) == Outcome(s2, Some(Backward));
    assert Step(s2, evs[2], false) == Outcome(s3, Some(Right));
    assert Run(s2, evs[2..], false) == Trace(s3, [Right]);
    assert Run(s1, evs[1..], false) == Trace(s3, [Backward, Right]);
  }

  /** The component: three slider values and the shared memory, updated in
      place by the change handlers. */
  class SliderControl {
    var xValue: int
    var yValue: int
    var rotationValue: int
    var lastDirection: Direction

    function State(): SliderState
      reads this
    {
      SliderState(xValue, yValue, rotationValue, lastDirection)
    }

    constructor ()
      ensures State() == Centred
    {
      xValue, yValue, rotationValue := Middle, Middle, Middle;
      lastDirection := Neutral;
    }

    /** The body shared by the three change handlers. */
    method HandleChange(c: Channel, newValue: int, disabled: bool) returns (command: Option<Direction>)
      modifies this
      ensures Outcome(State(), command) == Change(old(State()), c, newValue, disabled)
    {
      command := None;
      if disabled {
        return;
      }
      match c {
        case XAxis => xValue := newValue;
        case YAxis => yValue := newValue;
        case Rotation => rotationValue := newValue;
      }
      var direction := Neutral;
      if Abs(newValue - Middle) > MovementThreshold {
        direction := if newValue < Middle then Low(c) else High(c);
      }
      if direction != Neutral && direction != lastDirection {
        lastDirection := direction;
        command := Some(direction);
      } else if direction == Neutral && (lastDirection == Low(c) || lastDirection == High(c)) {
        lastDirection := Neutral;
      }
    }

    method HandleXChange(newValue: int, disabled: bool) returns (command: Option<Direction>)
      modifies this
      ensures Outcome(State(), command) == Change(old(State()), XAxis, newValue, disabled)
    {
      command := HandleChange(XAxis, newValue, disabled);
    }

    method HandleYChange(newValue: int, disabled: bool) returns (command: Option<Direction>)
      modifies this
      ensures Outcome(State(), command) == Change(old(State()), YAxis, newValue, disabled)
    {
      command := HandleChange(YAxis, newValue, disabled);
    }

    method HandleRotationChange(newValue: int, disabled: bool) returns (command: Option<Direction>)
      modifies this
      ensures Outcome(State(), command) == Change(old(State()), Rotation, newValue, disabled)
    {
      command := HandleChange(Rotation, newValue, disabled);
    }

    method HandleReset()
      modifies this
      ensures State() == Centred
    {
      xValue := Middle;
      yValue := Middle;
      rotationValue := Middle;
      lastDirection := Neutral;
    }
  }
}
