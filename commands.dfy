/** Vocabulary shared by every control surface: the motion commands a
    controller hands to its `onControl` callback, and the shape of one
    handler's reaction to one input event. */
module Commands {

  datatype Option<+T> = None | Some(value: T)

  /** The command strings of the front-end. `Neutral` is the empty string
      `''` that the controllers store when no direction is active; it is
      never sent as a command. */
  datatype Direction = Neutral | Forward | Backward | Left | Right | RotateLeft | RotateRight

  /** The state after a handler ran, and what (if anything) it emitted. */
  datatype Outcome<S, C> = Outcome(state: S, output: Option<C>)

  /** The state after a sequence of events, and everything emitted, in order. */
  datatype Trace<S, C> = Trace(state: S, outputs: seq<C>)

  /** The emissions of one event as a sequence of length 0 or 1. */
  function Emitted<C>(o: Option<C>): (s: seq<C>)
    ensures |s| <= 1
    ensures o.Some? <==> |s| == 1
    ensures o.Some? ==> s[0] == o.value
  {
    match o
    case None => []
    case Some(c) => [c]
  }

  function Abs(x: int): nat
  {
    if x < 0 then -x else x
  }

  function RealAbs(x: real): (r: real)
    ensures r >= 0.0
  {
    if x < 0.0 then -x else x
  }
}
