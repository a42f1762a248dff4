/** The whole-surface swipe and long-press recogniser.  A single-finger
    touch-start records where and when the touch began and, when a
    long-press handler is configured, arms a 500 ms timer; any move or end
    cancels that timer; a touch-end within 300 ms that travelled more than
    50 px on some axis is a swipe along the dominant axis. */
module Gesture {
  import opened Commands

  /** Travel, in pixels, a swipe must exceed on at least one axis. */
  const SwipeThreshold := 50
  /** Delay, in milliseconds, of the long-press timer. */
  const LongPressDuration := 500
  /** A touch must end strictly within this many milliseconds to be a swipe. */
  const SwipeWindow := 300

  /** Where and when the current touch began. */
  datatype TouchSample = TouchSample(x: int, y: int, time: int)

  /** Handles of the runtime's timers.  The runtime hands out positive
      handles, so a stored handle is never mistaken for "no timer". */
  type TimerId = nat

  datatype Swipe = SwipeUp | SwipeDown | SwipeLeft | SwipeRight

  /** What the recogniser reports: a swipe handler or the long-press handler. */
  datatype Recognised = Swiped(swipe: Swipe) | LongPressed

  /** The swipe, if any, of a touch that travelled (dx, dy) in `elapsed` ms.
      Horizontal only when |dx| is strictly larger than |dy|. */
  function ClassifySwipe(dx: int, dy: int, elapsed: int): (r: Option<Swipe>)
    ensures r.Some? <==> elapsed < 300 && (Abs(dx) > 50 || Abs(dy) > 50)
    ensures r.Some? ==> ((r.value == SwipeLeft || r.value == SwipeRight) <==> Abs(dx) > Abs(dy))
  {
    if elapsed < SwipeWindow && (Abs(dx) > SwipeThreshold || Abs(dy) > SwipeThreshold) then
      Some(if Abs(dx) > Abs(dy) then (if dx > 0 then SwipeRight else SwipeLeft)
           else if dy > 0 then SwipeDown else SwipeUp)
    else None
  }

  /** Equal travel on both axes is a vertical swipe. */
  lemma SwipeTieGoesVertical(d: int, e: int, elapsed: int)
    requires Abs(d) == Abs(e) > 50 && elapsed < 300
    ensures ClassifySwipe(d, e, elapsed) == Some(if e > 0 then SwipeDown else SwipeUp)
  {
  }

  /** From (100, 100) at 0 ms to (100, 200) at 100 ms is a downward swipe;
      the same travel over 400 ms, or a travel of (30, 10) over 50 ms, is none. */
  lemma SwipeExamples()
    ensures ClassifySwipe(100 - 100, 200 - 100, 100 - 0) == Some(SwipeDown)
    ensures ClassifySwipe(100 - 100, 200 - 100, 400 - 0) == None
    ensures ClassifySwipe(30, 10, 50) == None
  {
  }

  /** The two refs of the hook, plus the runtime's table of pending timers
      and the next handle it will hand out. */
  datatype GestureState = GestureState(
    touchStart: Option<TouchSample>,
    timerRef: Option<TimerId>,
    scheduled: set<TimerId>,
    nextTimer: TimerId)

  const Initial := GestureState(None, None, {}, 1)

  /** Handles are positive and every handle in use was handed out before. */
  predicate Valid(s: GestureState)
  {
    s.nextTimer >= 1 &&
    (forall id | id in s.scheduled :: 1 <= id < s.nextTimer) &&
    (s.timerRef.Some? ==> 1 <= s.timerRef.value < s.nextTimer)
  }

  datatype Event =
    | TouchStart(touches: nat, x: int, y: int, now: int)
    | TouchMove
    | TouchEnd(x: int, y: int, now: int)
    | TimerFires(id: TimerId)   // timer `id` comes due, `LongPressDuration` ms after it was armed

  /** Clear the referenced timer, if any, and forget the reference; every
      other pending timer stays pending. */
  function CancelTimer(s: GestureState): (r: GestureState)
    ensures r.timerRef == None && r.touchStart == s.touchStart && r.nextTimer == s.nextTimer
    ensures s.timerRef.Some? ==> s.timerRef.value !in r.scheduled
    ensures forall id | id in s.scheduled && Some(id) != s.timerRef :: id in r.scheduled
    ensures r.scheduled == if s.timerRef.Some? then s.scheduled - {s.timerRef.value} else s.scheduled
  {
    if s.timerRef.Some? then s.(scheduled := s.scheduled - {s.timerRef.value}, timerRef := None) else s
  }

  /** The recogniser's reaction to one event; `hasLongPress` says whether a
      long-press handler is configured. */
  function Step(s: GestureState, ev: Event, hasLongPress: bool): Outcome<GestureState, Recognised>
  {
    match ev
    case TouchStart(n, x, y, now) =>
      if n != 1 then Outcome(s, None)
      else
        var recorded := s.(touchStart := Some(TouchSample(x, y, now)));
        if hasLongPress then
          Outcome(recorded.(timerRef := Some(s.nextTimer), scheduled := s.scheduled + {s.nextTimer},
                            nextTimer := s.nextTimer + 1), None)
        else Outcome(recorded, None)
    case TouchMove => Outcome(CancelTimer(s), None)
    case TouchEnd(x, y, now) =>
      var c := CancelTimer(s);
      if c.touchStart.None? then Outcome(c, None)
      else
        var start := c.touchStart.value;
        var swipe := ClassifySwipe(x - start.x, y - start.y, now - start.time);
        Outcome(c.(touchStart := None), if swipe.Some? then Some(Swiped(swipe.value)) else None)
    case TimerFires(id) =>
      if id in s.scheduled then Outcome(s.(scheduled := s.scheduled - {id}, touchStart := None), Some(LongPressed))
      else Outcome(s, None)
  }

  function Run(s: GestureState, evs: seq<Event>, hasLongPress: bool): Trace<GestureState, Recognised>
    decreases |evs|
  {
    if evs == [] then Trace(s, [])
    else
      var o := Step(s, evs[0], hasLongPress);
      var t := Run(o.state, evs[1..], hasLongPress);
      Trace(t.state, Emitted(o.output) + t.outputs)
  }

  lemma StepKeepsValid(s: GestureState, ev: Event, hasLongPress: bool)
    requires Valid(s)
    ensures Valid(Step(s, ev, hasLongPress).state)
  {
  }

  /** A touch-start with other than one finger leaves everything as it was. */
  lemma MultiTouchStartIgnored(s: GestureState, n: nat, x: int, y: int, now: int, hasLongPress: bool)
    requires n != 1
    ensures Step(s, TouchStart(n, x, y, now), hasLongPress) == Outcome(s, None)
  {
  }

  /** A single-finger start records the sample and arms a fresh, pending
      long-press timer exactly when a long-press handler is configured. */
  lemma StartRecordsAndArms(s: GestureState, x: int, y: int, now: int, hasLongPress: bool)
    requires Valid(s)
    ensures var s' := Step(s, TouchStart(1, x, y, now), hasLongPress).state;
      s'.touchStart == Some(TouchSample(x, y, now)) &&
      (hasLongPress <==> s'.timerRef.Some? && s'.timerRef.value in s'.scheduled && s'.timerRef.value !in s.scheduled) &&
      (!hasLongPress ==> s'.scheduled == s.scheduled && s'.timerRef == s.timerRef)
  {
  }

  /** A move cancels the pending timer and changes nothing else. */
  lemma MoveOnlyCancels(s: GestureState)
    ensures var o := Step(s, TouchMove, false);
      o.output == None && o.state.touchStart == s.touchStart && o.state.timerRef == None &&
      o.state.scheduled == (if s.timerRef.Some? then s.scheduled - {s.timerRef.value} else s.scheduled)
  {
  }

  /** A touch-end always cancels the referenced timer, and only that one,
      and always leaves no start sample; without a start sample it reports
      nothing. */
  lemma EndCancelsAndForgets(s: GestureState, x: int, y: int, now: int, hasLongPress: bool)
    ensures var o := Step(s, TouchEnd(x, y, now), hasLongPress);
      o.state.timerRef == None && o.state.touchStart == None && o.state.nextTimer == s.nextTimer &&
      o.state.scheduled == (if s.timerRef.Some? then s.scheduled - {s.timerRef.value} else s.scheduled) &&
      (s.touchStart.None? ==> o.output == None)
  {
  }

  /** A touch-end reports a swipe exactly when there is a start sample and
      the touch was fast and long enough; it never reports a long press. */
  lemma EndReportsSwipe(s: GestureState, x: int, y: int, now: int, hasLongPress: bool)
    ensures var o := Step(s, TouchEnd(x, y, now), hasLongPress);
      o.output != Some(LongPressed) &&
      (o.output.Some? <==>
        s.touchStart.Some? && now - s.touchStart.value.time < 300 &&
        (Abs(x - s.touchStart.value.x) > 50 || Abs(y - s.touchStart.value.y) > 50))
  {
  }

  /** A timer that was cancelled, or that has fired already, does nothing. */
  lemma StaleTimerIsHarmless(s: GestureState, id: TimerId, hasLongPress: bool)
    requires id !in s.scheduled
    ensures Step(s, TimerFires(id), hasLongPress) == Outcome(s, None)
  {
  }

  /** Touch, hold until the timer fires, release: the long-press handler
      runs once, a second firing of the same timer does nothing, and the
      release reports no swipe however the finger moved. */
  lemma LongPressSuppressesSwipe(s: GestureState, x: int, y: int, t0: int, x1: int, y1: int, t1: int)
    ensures var o1 := Step(s, TouchStart(1, x, y, t0), true);
      var o2 := Step(o1.state, TimerFires(s.nextTimer), true);
      var o3 := Step(o2.state, TimerFires(s.nextTimer), true);
      var o4 := Step(o3.state, TouchEnd(x1, y1, t1), true);
      o1.output == None && o2.output == Some(LongPressed) && o3.output == None && o4.output == None
  {
  }

  /** A second single-finger start while a timer is pending overwrites the
      reference without clearing that timer, so the release cannot cancel
      it: the first timer still reports a long press after the finger has
      been lifted. */
  lemma RestartOrphansTimer(s: GestureState, x: int, y: int, t: int, x': int, y': int, t': int, x1: int, y1: int, t1: int)
    ensures var s1 := Step(s, TouchStart(1, x, y, t), true).state;
      var s2 := Step(s1, TouchStart(1, x', y', t'), true).state;
      var s3 := Step(s2, TouchEnd(x1, y1, t1), true).state;
      s3.timerRef == None && s.nextTimer in s3.scheduled &&
      Step(s3, TimerFires(s.nextTimer), true).output == Some(LongPressed)
  {
  }

  /** Without a long-press handler no timer is ever armed, so a run that
      starts with no pending timer never reports a long press. */
  lemma {:induction false} NoHandlerNoLongPress(s: GestureState, evs: seq<Event>)
    requires s.scheduled == {}
    ensures LongPressed !in Run(s, evs, false).outputs
    ensures Run(s, evs, false).state.scheduled == {}
    decreases |evs|
  {
    if evs != [] {
      var o := Step(s, evs[0], false);
      assert o.state.scheduled == {};
      assert o.output != Some(LongPressed);
      NoHandlerNoLongPress(o.state, evs[1..]);
    }
  }

  /** The hook: two mutable refs, plus the runtime's timer table that
      `setTimeout` and `clearTimeout` act on. */
  class GestureRecogniser {
    var touchStart: Option<TouchSample>
    var longPressTimer: Option<TimerId>
    var scheduled: set<TimerId>
    var nextTimer: TimerId

    function State(): GestureState
      reads this
    {
      GestureState(touchStart, longPressTimer, scheduled, nextTimer)
    }

    constructor ()
      ensures State() == Initial
    {
      touchStart, longPressTimer := None, None;
      scheduled, nextTimer := {}, 1;
    }

    /** Clear the referenced timer, if any. */
    method ClearLongPressTimer()
      modifies this
      ensures State() == CancelTimer(old(State()))
    {
      if longPressTimer.Some? {
        scheduled := scheduled - {longPressTimer.value};
        longPressTimer := None;
      }
    }

    method HandleTouchStart(touches: nat, x: int, y: int, now: int, hasLongPress: bool)
      modifies this
      ensures Outcome(State(), None) == Step(old(State()), TouchStart(touches, x, y, now), hasLongPress)
    {
      if touches != 1 {
        return;
      }
      touchStart := Some(TouchSample(x, y, now));
      if hasLongPress {
        longPressTimer := Some(nextTimer);
        scheduled := scheduled + {nextTimer};
        nextTimer := nextTimer + 1;
      }
    }

    method HandleTouchMove()
      modifies this
      ensures Outcome(State(), None) == Step(old(State()), TouchMove, false)
    {
      ClearLongPressTimer();
    }

    method HandleTouchEnd(x: int, y: int, now: int) returns (recognised: Option<Recognised>)
      modifies this
      ensures Outcome(State(), recognised) == Step(old(State()), TouchEnd(x, y, now), false)
    {
      ClearLongPressTimer();
      recognised := None;
      if touchStart.None? {
        return;
      }
      var deltaX := x - touchStart.value.x;
      var deltaY := y - touchStart.value.y;
      var timeDiff := now - touchStart.value.time;
      if timeDiff < SwipeWindow {
        if Abs(deltaX) > SwipeThreshold || Abs(deltaY) > SwipeThreshold {
          if Abs(deltaX) > Abs(deltaY) {
            recognised := Some(Swiped(if deltaX > 0 then SwipeRight else SwipeLeft));
          } else {
            recognised := Some(Swiped(if deltaY > 0 then SwipeDown else SwipeUp));
          }
        }
      }
      touchStart := None;
    }

    /** The long-press timer's callback, run when timer `id` comes due;
      a timer that was cleared never runs. */
    method LongPressTimerFires(id: TimerId) returns (longPressed: bool)
      modifies this
      ensures Outcome(State(), if longPressed then Some(LongPressed) else None) == Step(old(State()), TimerFires(id), false)
    {
      longPressed := id in scheduled;
      if longPressed {
        scheduled := scheduled - {id};
        touchStart := None;
      }
    }
  }
}
