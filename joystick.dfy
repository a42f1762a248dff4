/** The virtual joystick: a drag state machine over a circular base.  Each
    pointer sample is turned into a displacement from the centre of the
    base, clamped to the base's radius for display, and classified into one
    of four directions or neutral; a command is sent only when the
    classification changes to a non-neutral direction. */
module Joystick {
  import opened Commands

  /** Radius, in pixels, to which the handle's offset is clamped. */
  const MaxDistance: real := 50.0
  /** Distance, in pixels, at or under which a sample is neutral. */
  const DeadZone: real := 10.0

  /** The container's bounding box, in integer client pixels. */
  datatype Rect = Rect(left: int, top: int, width: int, height: int)

  /** One pointer sample.  `distance` is the length of the displacement,
      the value the runtime's square root yields, taken as exact. */
  datatype Sample = Sample(clientX: int, clientY: int, box: Rect, distance: real)

  /** Twice the horizontal displacement of the pointer from the centre of
      the box.  The centre sits at `width / 2`, which may be a half pixel,
      so the doubled displacement is the exact integer form. */
  function TwiceDeltaX(s: Sample): int
  {
    2 * (s.clientX - s.box.left) - s.box.width
  }

  function TwiceDeltaY(s: Sample): int
  {
    2 * (s.clientY - s.box.top) - s.box.height
  }

  function DeltaX(s: Sample): (dx: real)
    ensures 2.0 * dx == TwiceDeltaX(s) as real
  {
    TwiceDeltaX(s) as real / 2.0
  }

  function DeltaY(s: Sample): (dy: real)
    ensures 2.0 * dy == TwiceDeltaY(s) as real
  {
    TwiceDeltaY(s) as real / 2.0
  }

  /** The halved integers are the handler's displacements: the pointer minus
      the box's left/top edge minus half its width/height. */
  lemma DeltaMatchesCentre(s: Sample)
    ensures DeltaX(s) == (s.clientX - s.box.left) as real - s.box.width as real / 2.0
    ensures DeltaY(s) == (s.clientY - s.box.top) as real - s.box.height as real / 2.0
  {
  }

  /** The sample's `distance` is the Euclidean length of its displacement. */
  predicate Measured(s: Sample)
  {
    s.distance >= 0.0 && s.distance * s.distance == DeltaX(s) * DeltaX(s) + DeltaY(s) * DeltaY(s)
  }

  /** The handle's offset from the centre of the base. */
  datatype Offset = Offset(x: real, y: real)

  const Centre := Offset(0.0, 0.0)

  /** The squared length of an offset. */
  function NormSquared(p: Offset): real
  {
    p.x * p.x + p.y * p.y
  }

  /** Two offsets point into the same quadrant half-planes and agree on
      which axis dominates: everything the classification looks at. */
  predicate SameHeading(a: Offset, b: Offset)
  {
    (a.x > 0.0 <==> b.x > 0.0) && (a.y > 0.0 <==> b.y > 0.0) &&
    (RealAbs(a.x) > RealAbs(a.y) <==> RealAbs(b.x) > RealAbs(b.y))
  }

  lemma MulPos(x: real, k: real)
    requires x > 0.0 && k > 0.0
    ensures x * k > 0.0
  {
  }

  lemma MulNonNeg(x: real, k: real)
    requires x >= 0.0 && k > 0.0
    ensures x * k >= 0.0
  {
  }

  /** A positive factor keeps the sign of a product. */
  lemma PositiveFactor(x: real, k: real)
    requires k > 0.0
    ensures x * k > 0.0 <==> x > 0.0
  {
    if x > 0.0 {
      MulPos(x, k);
    } else {
      MulNonNeg(-x, k);
      assert (-x) * k == -(x * k);
    }
  }

  lemma SquareMonotone(a: real, b: real)
    requires 0.0 <= a <= b
    ensures a * a <= b * b
    ensures a < b ==> a * a < b * b
  {
    assert b * b - a * a == (b - a) * (b + a);
    if a < b {
      MulPos(b - a, b + a);
    } else {
      assert b * b - a * a == 0.0;
    }
  }

  lemma AbsMul(a: real, k: real)
    requires k > 0.0
    ensures RealAbs(a * k) == RealAbs(a) * k
  {
    if a >= 0.0 {
      MulNonNeg(a, k);
    } else {
      MulPos(-a, k);
      assert (-a) * k == -(a * k);
    }
  }

  /** A positive factor keeps which of two magnitudes is larger. */
  lemma ScaledAbsOrder(a: real, b: real, k: real)
    requires k > 0.0
    ensures RealAbs(a * k) > RealAbs(b * k) <==> RealAbs(a) > RealAbs(b)
  {
    AbsMul(a, k);
    AbsMul(b, k);
    var ua, ub := RealAbs(a), RealAbs(b);
    if ua > ub {
      MulPos(ua - ub, k);
      assert (ua - ub) * k == ua * k - ub * k;
    } else {
      MulNonNeg(ub - ua, k);
      assert (ub - ua) * k == ub * k - ua * k;
    }
  }

  lemma ScalingKeepsHeading(a: real, b: real, k: real)
    requires k > 0.0
    ensures SameHeading(Offset(a * k, b * k), Offset(a, b))
  {
    PositiveFactor(a, k);
    PositiveFactor(b, k);
    ScaledAbsOrder(a, b, k);
  }

  /** A displacement longer than the radius, rescaled by
      `MaxDistance / distance`, lies on the rim, on the same ray through the
      centre (its cross product with the displacement is zero) and with the
      same heading. */
  lemma RimScaling(dx: real, dy: real, distance: real)
    requires distance > MaxDistance
    requires distance * distance == dx * dx + dy * dy
    ensures var r := Offset(dx / distance * MaxDistance, dy / distance * MaxDistance);
      NormSquared(r) == MaxDistance * MaxDistance && SameHeading(r, Offset(dx, dy)) &&
      r.x * dy == r.y * dx
  {
    var k := MaxDistance / distance;
    assert k > 0.0;
    assert k * distance == MaxDistance;
    var r := Offset(dx / distance * MaxDistance, dy / distance * MaxDistance);
    assert r == Offset(dx * k, dy * k);
    ScalingKeepsHeading(dx, dy, k);
    assert (dx * k) * dy == (dy * k) * dx;
    calc {
      NormSquared(r);
      (dx * k) * (dx * k) + (dy * k) * (dy * k);
      { assert (dx * k) * (dx * k) == (dx * dx) * (k * k);
        assert (dy * k) * (dy * k) == (dy * dy) * (k * k); }
      (dx * dx + dy * dy) * (k * k);
      (distance * distance) * (k * k);
      { assert (distance * distance) * (k * k) == (k * distance) * (k * distance); }
      MaxDistance * MaxDistance;
    }
  }

  /** The handle offset the source displays: the displacement itself when it
      is within the radius, otherwise the displacement rescaled onto the rim.
      Either way it lies on the displacement's ray: same angle, same signs. */
  function Clamp(dx: real, dy: real, distance: real): (r: Offset)
    requires distance >= 0.0 && distance * distance == dx * dx + dy * dy
    ensures NormSquared(r) <= MaxDistance * MaxDistance
    ensures distance > MaxDistance ==> NormSquared(r) == MaxDistance * MaxDistance
    ensures distance <= MaxDistance ==> r == Offset(dx, dy)
    ensures SameHeading(r, Offset(dx, dy))
    ensures r.x * dy == r.y * dx
  {
    if distance > MaxDistance then
      RimScaling(dx, dy, distance);
      Offset(dx / distance * MaxDistance, dy / distance * MaxDistance)
    else
      SquareMonotone(distance, MaxDistance);
      Offset(dx, dy)
  }

  /** Where the handle is drawn for a sample: its displacement, clamped. */
  function Handle(s: Sample): Offset
    requires Measured(s)
  {
    Clamp(DeltaX(s), DeltaY(s), s.distance)
  }

  /** The classification as the handler computes it: the raw distance
      decides the dead zone, the clamped offset decides the axis and sign. */
  function Heading(p: Offset, distance: real): Direction
  {
    if distance > DeadZone then
      if RealAbs(p.x) > RealAbs(p.y) then (if p.x > 0.0 then Right else Left)
      else if p.y > 0.0 then Backward else Forward
    else Neutral
  }

  /** The direction of a displacement, given as twice its components:
      neutral within 10 px of the centre (`(2dx)^2 + (2dy)^2 <= 400`), else
      horizontal when |dx| is strictly larger than |dy|, else vertical. */
  function Classify(tx: int, ty: int): (d: Direction)
    ensures d != RotateLeft && d != RotateRight
    ensures d == Neutral <==> tx * tx + ty * ty <= 400
  {
    if tx * tx + ty * ty <= 400 then Neutral
    else if Abs(tx) > Abs(ty) then (if tx > 0 then Right else Left)
    else if ty > 0 then Backward else Forward
  }

  /** The direction of a sample, from its exact integer displacement. */
  function SampleDirection(s: Sample): Direction
  {
    Classify(TwiceDeltaX(s), TwiceDeltaY(s))
  }

  /** Outside the dead zone, equal magnitudes on both axes classify
      vertically: the comparison in the source is strict. */
  lemma TieGoesVertical(tx: int, ty: int)
    requires Abs(tx) == Abs(ty) && tx * tx + ty * ty > 400
    ensures Classify(tx, ty) == (if ty > 0 then Backward else Forward)
  {
  }

  lemma PositiveMultiple(x: int, k: int)
    requires k >= 1
    ensures x > 0 <==> k * x > 0
    ensures Abs(k * x) == k * Abs(x)
  {
    if x > 0 { assert k * x >= x; }
    else if x < 0 { assert k * (-x) >= -x; assert k * x == -(k * (-x)); }
  }

  lemma ScaledSquares(tx: int, ty: int, k: int)
    requires k >= 1
    ensures (k * tx) * (k * tx) + (k * ty) * (k * ty) >= tx * tx + ty * ty
  {
    var n := tx * tx + ty * ty;
    assert (k * tx) * (k * tx) + (k * ty) * (k * ty) == (k * k) * n;
    assert k * k >= 1 by { PositiveMultiple(k, k); }
    assert (k * k) * n - n == (k * k - 1) * n;
    assert n >= 0;
    assert (k * k - 1) * n >= 0;
  }

  /** Two displacements outside the dead zone with the same signs and the
      same dominant axis classify alike. */
  lemma ClassifyBySigns(a: int, b: int, c: int, d: int)
    requires a * a + b * b > 400 && c * c + d * d > 400
    requires (a > 0 <==> c > 0) && (b > 0 <==> d > 0)
    requires Abs(a) > Abs(b) <==> Abs(c) > Abs(d)
    ensures Classify(a, b) == Classify(c, d)
  {
  }

  /** A factor of at least one keeps which of two integers is larger. */
  lemma ScaledOrder(a: int, b: int, k: int)
    requires k >= 1
    ensures k * a > k * b <==> a > b
  {
    PositiveMultiple(a - b, k);
    assert k * (a - b) == k * a - k * b;
  }

  /** Pushing further along the same ray never changes the direction. */
  lemma ClassifyAlongRay(tx: int, ty: int, k: int)
    requires k >= 1 && tx * tx + ty * ty > 400
    ensures Classify(k * tx, k * ty) == Classify(tx, ty)
  {
    var kx, ky := k * tx, k * ty;
    PositiveMultiple(tx, k);
    PositiveMultiple(ty, k);
    assert Abs(kx) == k * Abs(tx) && Abs(ky) == k * Abs(ty);
    ScaledOrder(Abs(tx), Abs(ty), k);
    assert Abs(kx) > Abs(ky) <==> Abs(tx) > Abs(ty);
    ScaledSquares(tx, ty, k);
    ClassifyBySigns(kx, ky, tx, ty);
  }

  /** Clamping is invisible to the classification: the direction the
      handler computes from the clamped offset is the direction of the raw
      displacement. */
  lemma ClampedHeading(s: Sample)
    requires Measured(s)
    ensures Heading(Handle(s), s.distance) == SampleDirection(s)
  {
    var tx, ty := TwiceDeltaX(s), TwiceDeltaY(s);
    var dx, dy, d := DeltaX(s), DeltaY(s), s.distance;
    ScalingKeepsHeading(tx as real, ty as real, 0.5);
    assert tx as real * 0.5 == dx && ty as real * 0.5 == dy;
    assert RealAbs(tx as real) > RealAbs(ty as real) <==> Abs(tx) > Abs(ty);
    assert 4.0 * (d * d) == (tx * tx + ty * ty) as real;
    if d > DeadZone {
      SquareMonotone(DeadZone, d);
    } else {
      SquareMonotone(d, DeadZone);
    }
  }

  /** What the joystick keeps between events. */
  datatype JoyState = JoyState(dragging: bool, position: Offset, direction: Direction)

  const Idle := JoyState(false, Centre, Neutral)

  /** Every reachable state: at rest when not dragging, and the handle
      never outside the base. */
  predicate Valid(st: JoyState)
  {
    (!st.dragging ==> st.position == Centre && st.direction == Neutral) &&
    NormSquared(st.position) <= MaxDistance * MaxDistance
  }

  /** Input events.  Document-level moves and releases seen during a drag
      are the same events as those on the base itself. */
  datatype Event =
    | MouseDown(sample: Sample)
    | MouseMove(sample: Sample)
    | MouseUp
    | MouseLeave
    | TouchStart(touches: nat, sample: Sample)
    | TouchMove(touches: nat, sample: Sample)
    | TouchEnd

  predicate WellFormed(ev: Event)
  {
    (ev.MouseDown? || ev.MouseMove? || ev.TouchStart? || ev.TouchMove?) ==> Measured(ev.sample)
  }

  predicate IsRelease(ev: Event)
  {
    ev.MouseUp? || ev.MouseLeave? || ev.TouchEnd?
  }

  /** One sample processed by the move handler. */
  function Track(st: JoyState, s: Sample, disabled: bool): Outcome<JoyState, Direction>
    requires Measured(s)
  {
    if disabled then Outcome(st, None)
    else
      var d := SampleDirection(s);
      Outcome(st.(position := Handle(s), direction := d),
              if d != st.direction && d != Neutral then Some(d) else None)
  }

  function Start(st: JoyState, s: Sample, disabled: bool): Outcome<JoyState, Direction>
    requires Measured(s)
  {
    if disabled then Outcome(st, None) else Track(st.(dragging := true), s, disabled)
  }

  function Move(st: JoyState, s: Sample, disabled: bool): Outcome<JoyState, Direction>
    requires Measured(s)
  {
    if !st.dragging then Outcome(st, None) else Track(st, s, disabled)
  }

  /** The joystick's reaction to one event while the `disabled` input has
      the given value. */
  function Step(st: JoyState, ev: Event, disabled: bool): Outcome<JoyState, Direction>
    requires WellFormed(ev)
  {
    match ev
    case MouseDown(s) => Start(st, s, disabled)
    case MouseMove(s) => Move(st, s, disabled)
    case TouchStart(n, s) => if n != 1 then Outcome(st, None) else Start(st, s, disabled)
    case TouchMove(n, s) => if n != 1 then Outcome(st, None) else Move(st, s, disabled)
    case MouseUp => Outcome(Idle, None)
    case MouseLeave => Outcome(Idle, None)
    case TouchEnd => Outcome(Idle, None)
  }

  /** A sequence of events processed in order. */
  function Run(st: JoyState, evs: seq<Event>, disabled: bool): Trace<JoyState, Direction>
    requires forall e | e in evs :: WellFormed(e)
    decreases |evs|
  {
    if evs == [] then Trace(st, [])
    else
      var o := Step(st, evs[0], disabled);
      var t := Run(o.state, evs[1..], disabled);
      Trace(t.state, Emitted(o.output) + t.outputs)
  }

  /** Commands are edge-triggered: whatever is sent is the newly recorded
      direction, differs from the direction recorded before, and is never
      neutral; and a sample taken while dragging and enabled sends a
      command exactly when its direction is new and non-neutral. */
  lemma EmitsOnlyOnChange(st: JoyState, ev: Event, disabled: bool)
    requires WellFormed(ev)
    ensures var o := Step(st, ev, disabled);
      o.output.Some? ==> o.output.value != Neutral && o.output.value != st.direction && o.state.direction == o.output.value
    ensures (ev.MouseMove? || (ev.TouchMove? && ev.touches == 1)) && st.dragging && !disabled ==>
      var d := SampleDirection(ev.sample);
      Step(st, ev, disabled).state.direction == d &&
      (Step(st, ev, disabled).output.Some? <==> d != st.direction && d != Neutral)
  {
  }

  /** An enabled press (mouse-down, or a one-finger touch-start) starts a
      drag, records the sample's direction and clamped offset, and sends
      exactly when that direction is new and non-neutral. */
  lemma PressStartsDrag(st: JoyState, s: Sample)
    requires Measured(s)
    ensures Step(st, MouseDown(s), false) == Start(st, s, false)
    ensures Step(st, TouchStart(1, s), false) == Start(st, s, false)
    ensures Start(st, s, false).state.dragging
    ensures Start(st, s, false).state.direction == SampleDirection(s)
    ensures Start(st, s, false).state.position == Handle(s)
    ensures Start(st, s, false).output ==
      (if SampleDirection(s) != st.direction && SampleDirection(s) != Neutral
       then Some(SampleDirection(s)) else None)
  {
    TrackRecords(st.(dragging := true), s);
  }

  /** The enabled move handler keeps the drag flag, records the clamped
      offset and the sample's direction, and sends that direction exactly
      when it is new and non-neutral. */
  lemma TrackRecords(st: JoyState, s: Sample)
    requires Measured(s)
    ensures Track(st, s, false).state.dragging == st.dragging
    ensures Track(st, s, false).state.position == Handle(s)
    ensures Track(st, s, false).state.direction == SampleDirection(s)
    ensures Track(st, s, false).output ==
      (if SampleDirection(s) != st.direction && SampleDirection(s) != Neutral
       then Some(SampleDirection(s)) else None)
  {
  }

  /** Handling the same event twice in a row: the second time changes
      nothing and sends nothing. */
  lemma StepIdempotent(st: JoyState, ev: Event, disabled: bool)
    requires WellFormed(ev)
    ensures var st' := Step(st, ev, disabled).state;
      Step(st', ev, disabled) == Outcome(st', None)
  {
  }

  /** While disabled, presses and moves change nothing and send nothing;
      only a release still resets the joystick. */
  lemma DisabledIgnoresInput(st: JoyState, ev: Event)
    requires WellFormed(ev)
    ensures Step(st, ev, true) == if IsRelease(ev) then Outcome(Idle, None) else Outcome(st, None)
  {
  }

  /** Moves are ignored unless a drag is in progress. */
  lemma MoveNeedsDrag(st: JoyState, ev: Event, disabled: bool)
    requires WellFormed(ev) && (ev.MouseMove? || ev.TouchMove?) && !st.dragging
    ensures Step(st, ev, disabled) == Outcome(st, None)
  {
  }

  /** Every release ends the drag, recentres the handle, forgets the
      direction and sends nothing. */
  lemma ReleaseResets(st: JoyState, ev: Event, disabled: bool)
    requires IsRelease(ev)
    ensures Step(st, ev, disabled) == Outcome(JoyState(false, Centre, Neutral), None)
  {
  }

  /** Touches with other than exactly one finger are ignored. */
  lemma MultiTouchIgnored(st: JoyState, ev: Event, disabled: bool)
    requires WellFormed(ev) && (ev.TouchStart? || ev.TouchMove?) && ev.touches != 1
    ensures Step(st, ev, disabled) == Outcome(st, None)
  {
  }

  lemma StepKeepsValid(st: JoyState, ev: Event, disabled: bool)
    requires Valid(st) && WellFormed(ev)
    ensures Valid(Step(st, ev, disabled).state)
  {
  }

  lemma {:induction false} RunKeepsValid(st: JoyState, evs: seq<Event>, disabled: bool)
    requires Valid(st) && forall e | e in evs :: WellFormed(e)
    ensures Valid(Run(st, evs, disabled).state)
    decreases |evs|
  {
    if evs != [] {
      StepKeepsValid(st, evs[0], disabled);
      RunKeepsValid(Step(st, evs[0], disabled).state, evs[1..], disabled);
    }
  }

  /** A run of events sends only non-neutral commands. */
  lemma {:induction false} RunNeverSendsNeutral(st: JoyState, evs: seq<Event>, disabled: bool)
    requires forall e | e in evs :: WellFormed(e)
    ensures Neutral !in Run(st, evs, disabled).outputs
    decreases |evs|
  {
    if evs != [] {
      EmitsOnlyOnChange(st, evs[0], disabled);
      RunNeverSendsNeutral(Step(st, evs[0], disabled).state, evs[1..], disabled);
    }
  }

  /** Once the joystick is disabled, no event sequence sends a command, and
      an idle joystick stays idle. */
  lemma {:induction false} DisabledRunIsSilent(st: JoyState, evs: seq<Event>)
    requires forall e | e in evs :: WellFormed(e)
    ensures Run(st, evs, true).outputs == []
    ensures !st.dragging ==> !Run(st, evs, true).state.dragging
    decreases |evs|
  {
    if evs != [] {
      DisabledIgnoresInput(st, evs[0]);
      DisabledRunIsSilent(Step(st, evs[0], true).state, evs[1..]);
    }
  }

  /** Unfolds `Run` by one event. */
  lemma RunCons(st: JoyState, e: Event, rest: seq<Event>, disabled: bool)
    requires WellFormed(e)
    requires forall x | x in rest :: WellFormed(x)
    ensures forall x | x in [e] + rest :: WellFormed(x)
    ensures
      var o := Step(st, e, disabled);
      var t := Run(o.state, rest, disabled);
      Run(st, [e] + rest, disabled) == Trace(t.state, Emitted(o.output) + t.outputs)
  {
    assert ([e] + rest)[0] == e;
    assert ([e] + rest)[1..] == rest;
  }

  /** Samples of a drag along the horizontal axis of a 100 x 100 px base
      at the page origin: at its centre, 20 px right of it, and 100 px
      right of it (beyond the rim). */
  const DragBase := Rect(0, 0, 100, 100)
  const AtCentre := Sample(50, 50, DragBase, 0.0)
  const NearRight := Sample(70, 50, DragBase, 20.0)
  const FarRight := Sample(150, 50, DragBase, 100.0)

  /** The handler states the drag passes through, with the command each
      sample sends. */
  lemma DragRightSteps()
    ensures Measured(AtCentre) && Measured(NearRight) && Measured(FarRight)
    ensures Step(Idle, MouseDown(AtCentre), false) == Outcome(JoyState(true, Centre, Neutral), None)
    ensures Step(JoyState(true, Centre, Neutral), MouseMove(NearRight), false)
         == Outcome(JoyState(true, Offset(20.0, 0.0), Right), Some(Right))
    ensures Step(JoyState(true, Offset(20.0, 0.0), Right), MouseMove(FarRight), false)
         == Outcome(JoyState(true, Offset(50.0, 0.0), Right), None)
    ensures Step(JoyState(true, Offset(50.0, 0.0), Right), MouseMove(NearRight), false)
         == Outcome(JoyState(true, Offset(20.0, 0.0), Right), None)
    ensures Step(JoyState(true, Offset(20.0, 0.0), Right), MouseMove(AtCentre), false)
         == Outcome(JoyState(true, Centre, Neutral), None)
  {
    assert Handle(AtCentre) == Centre by { assert Measured(AtCentre); }
    assert Handle(NearRight) == Offset(20.0, 0.0) by { assert Measured(NearRight); }
    assert Handle(FarRight) == Offset(50.0, 0.0) by { assert Measured(FarRight); }
    assert SampleDirection(AtCentre) == Neutral;
    assert SampleDirection(NearRight) == Right;
    assert SampleDirection(FarRight) == Right;
    PressStartsDrag(Idle, AtCentre);
    TrackRecords(JoyState(true, Centre, Neutral), NearRight);
    TrackRecords(JoyState(true, Offset(20.0, 0.0), Right), FarRight);
    TrackRecords(JoyState(true, Offset(50.0, 0.0), Right), NearRight);
    TrackRecords(JoyState(true, Offset(20.0, 0.0), Right), AtCentre);
  }

  /** A drag from the centre out to 100 px right and back to the centre,
      then a release, sends exactly one command: `right`. */
  lemma RightAndBack()
    ensures
      var evs := [MouseDown(AtCentre), MouseMove(NearRight), MouseMove(FarRight),
                  MouseMove(NearRight), MouseMove(AtCentre), MouseUp];
      (forall e | e in evs :: WellFormed(e)) && Run(Idle, evs, false) == Trace(Idle, [Right])
  {
    DragRightSteps();
    var j1 := JoyState(true, Centre, Neutral);
    var j2 := JoyState(true, Offset(20.0, 0.0), Right);
    var j3 := JoyState(true, Offset(50.0, 0.0), Right);
    var t5 := [MouseUp] + [];
    var t4 := [MouseMove(AtCentre)] + t5;
    var t3 := [MouseMove(NearRight)] + t4;
    var t2 := [MouseMove(FarRight)] + t3;
    var t1 := [MouseMove(NearRight)] + t2;
    var evs := [MouseDown(AtCentre)] + t1;
    assert Run(j1, t5, false) == Trace(Idle, []) by { RunCons(j1, MouseUp, [], false); }
    assert Run(j2, t4, false) == Trace(Idle, []) by { RunCons(j2, MouseMove(AtCentre), t5, false); }
    assert Run(j3, t3, false) == Trace(Idle, []) by { RunCons(j3, MouseMove(NearRight), t4, false); }
    assert Run(j2, t2, false) == Trace(Idle, []) by { RunCons(j2, MouseMove(FarRight), t3, false); }
    assert Run(j1, t1, false) == Trace(Idle, [Right]) by { RunCons(j1, MouseMove(NearRight), t2, false); }
    RunCons(Idle, MouseDown(AtCentre), t1, false);
    assert evs == [MouseDown(AtCentre), MouseMove(NearRight), MouseMove(FarRight),
                   MouseMove(NearRight), MouseMove(AtCentre), MouseUp];
  }

  /** The component: its three pieces of state, updated in place by the
      event handlers. */
  class JoystickControl {
    var position: Offset
    var isDragging: bool
    var direction: Direction

    function State(): JoyState
      reads this
    {
      JoyState(isDragging, position, direction)
    }

    constructor ()
      ensures State() == Idle
    {
      position := Centre;
      isDragging := false;
      direction := Neutral;
    }

    /** Clamp, classify, and send the direction if it is new and not neutral. */
    method HandleJoystickMove(s: Sample, disabled: bool) returns (command: Option<Direction>)
      requires Measured(s)
      modifies this
      ensures Outcome(State(), command) == Track(old(State()), s, disabled)
    {
      command := None;
      if disabled {
        return;
      }
      var deltaX, deltaY := DeltaX(s), DeltaY(s);
      var distance := s.distance;
      if distance > MaxDistance {
        deltaX := deltaX / distance * MaxDistance;
        deltaY := deltaY / distance * MaxDistance;
      }
      position := Offset(deltaX, deltaY);
      var absX, absY := RealAbs(deltaX), RealAbs(deltaY);
      var newDirection := Neutral;
      if distance > DeadZone {
        if absX > absY {
          newDirection := if deltaX > 0.0 then Right else Left;
        } else {
          newDirection := if deltaY > 0.0 then Backward else Forward;
        }
      }
      ClampedHeading(s);
      assert newDirection == Heading(position, distance);
      if newDirection != direction {
        direction := newDirection;
        if newDirection != Neutral {
          command := Some(newDirection);
        }
      }
    }

    method HandleStart(s: Sample, disabled: bool) returns (command: Option<Direction>)
      requires Measured(s)
      modifies this
      ensures Outcome(State(), command) == Start(old(State()), s, disabled)
    {
      command := None;
      if disabled {
        return;
      }
      isDragging := true;
      command := HandleJoystickMove(s, disabled);
    }

    method HandleMove(s: Sample, disabled: bool) returns (command: Option<Direction>)
      requires Measured(s)
      modifies this
      ensures Outcome(State(), command) == Move(old(State()), s, disabled)
    {
      command := None;
      if !isDragging {
        return;
      }
      command := HandleJoystickMove(s, disabled);
    }

    /** Mouse-up, mouse-leave and touch-end, on the base or the document. */
    method HandleEnd()
      modifies this
      ensures State() == Idle
    {
      isDragging := false;
      position := Centre;
      direction := Neutral;
    }

    method HandleTouchStart(touches: nat, s: Sample, disabled: bool) returns (command: Option<Direction>)
      requires Measured(s)
      modifies this
      ensures Outcome(State(), command) == Step(old(State()), TouchStart(touches, s), disabled)
    {
      command := None;
      if touches != 1 {
        return;
      }
      command := HandleStart(s, disabled);
    }

    method HandleTouchMove(touches: nat, s: Sample, disabled: bool) returns (command: Option<Direction>)
      requires Measured(s)
      modifies this
      ensures Outcome(State(), command) == Step(old(State()), TouchMove(touches, s), disabled)
    {
      command := None;
      if touches != 1 {
        return;
      }
      command := HandleMove(s, disabled);
    }
  }
}
