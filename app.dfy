/** The application shell: it accepts commands from the active controller
    only while the robot is switched on and connected, derives the
    controllers' `disabled` input from the same two conditions, drives the
    connection status through disconnected, connecting and connected,
    simulates sensor readings within their ranges and grades them. */
module App {
  import opened Commands
  import Gesture

  datatype ConnectionStatus = Disconnected | Connecting | Connected
  datatype ControllerType = PadController | JoystickController | SliderController
  datatype SensorStatus = Normal | Warning | Critical

  /** Severity order of the sensor grades. */
  function Severity(s: SensorStatus): nat
  {
    match s
    case Normal => 0
    case Warning => 1
    case Critical => 2
  }

  /** A percentage forced into [0, 100]. */
  function ClampPercent(v: int): (r: int)
    ensures 0 <= r <= 100
    ensures 0 <= v <= 100 ==> r == v
    ensures v < 0 ==> r == 0
    ensures v > 100 ==> r == 100
  {
    if v < 0 then 0 else if v > 100 then 100 else v
  }

  /** A reading forced to be non-negative. */
  function FloorAtZero(v: int): (r: nat)
    ensures v >= 0 ==> r == v
    ensures v < 0 ==> r == 0
  {
    if v < 0 then 0 else v
  }

  /** One tick of the battery simulation: drop by one or stay. */
  function BatteryTick(level: int, drop: bool): int
  {
    ClampPercent(level + if drop then -1 else 0)
  }

  /** One tick of the gas simulation: up or down by 5 ppm. */
  function GasTick(level: int, rise: bool): int
  {
    FloorAtZero(level + if rise then 5 else -5)
  }

  /** One tick of the signal simulation: up or down by 2. */
  function SignalTick(level: int, rise: bool): int
  {
    ClampPercent(level + if rise then 2 else -2)
  }

  /** Whatever the random choices, one tick keeps battery and signal in
      [0, 100] and gas non-negative, and within range each moves by
      exactly its step. */
  lemma TicksStayInRange(battery: int, gas: int, signal: int, drop: bool, gasRise: bool, signalRise: bool)
    ensures 0 <= BatteryTick(battery, drop) <= 100
    ensures 0 <= SignalTick(signal, signalRise) <= 100
    ensures GasTick(gas, gasRise) >= 0
    ensures 1 <= battery <= 100 ==> BatteryTick(battery, drop) == battery - (if drop then 1 else 0)
    ensures 5 <= gas ==> GasTick(gas, gasRise) == gas + (if gasRise then 5 else -5)
    ensures 2 <= signal <= 98 ==> SignalTick(signal, signalRise) == signal + (if signalRise then 2 else -2)
  {
  }

  /** Battery grade: critical under 20, warning under 40, else normal. */
  function BatteryStatus(level: int): (r: SensorStatus)
    ensures r == Critical <==> level < 20
    ensures r == Normal <==> level >= 40
  {
    if level < 20 then Critical else if level < 40 then Warning else Normal
  }

  /** Gas grade: critical over 300 ppm, warning over 200, else normal. */
  function GasStatus(level: int): (r: SensorStatus)
    ensures r == Critical <==> level > 300
    ensures r == Normal <==> level <= 200
  {
    if level > 300 then Critical else if level > 200 then Warning else Normal
  }

  /** Signal grade: critical under 30, warning under 50, else normal. */
  function SignalStatus(level: int): (r: SensorStatus)
    ensures r == Critical <==> level < 30
    ensures r == Normal <==> level >= 50
  {
    if level < 30 then Critical else if level < 50 then Warning else Normal
  }

  /** A weaker battery or signal, or more gas, never gets a milder grade. */
  lemma GradesAreMonotone(a: int, b: int)
    requires a <= b
    ensures Severity(BatteryStatus(a)) >= Severity(BatteryStatus(b))
    ensures Severity(SignalStatus(a)) >= Severity(SignalStatus(b))
    ensures Severity(GasStatus(a)) <= Severity(GasStatus(b))
  {
  }

  /** The command each swipe stands for. */
  function SwipeDirection(w: Gesture.Swipe): Direction
  {
    match w
    case SwipeUp => Forward
    case SwipeDown => Backward
    case SwipeLeft => Left
    case SwipeRight => Right
  }

  /** Distinct swipes stand for distinct commands, none of them neutral or
      a rotation. */
  lemma SwipeMappingIsInjective(w: Gesture.Swipe, w': Gesture.Swipe)
    ensures SwipeDirection(w) == SwipeDirection(w') ==> w == w'
    ensures SwipeDirection(w) in {Forward, Backward, Left, Right}
  {
  }

  datatype AppState = AppState(
    robotActive: bool,
    connectionStatus: ConnectionStatus,
    batteryLevel: int,
    gasLevel: int,
    signalStrength: int,
    lastAction: Direction,
    controllerType: ControllerType,
    isMenuOpen: bool,
    connectTimerPending: bool)   // the 2 s "connected" timer is scheduled

  const Launch := AppState(false, Disconnected, 85, 50, 78, Neutral, PadController, false, false)

  /** The `disabled` input handed to the active controller. */
  function IsDisabled(s: AppState): bool
  {
    !s.robotActive || s.connectionStatus != Connected
  }

  /** Every reachable state: readings in range, and the connection status
      in step with the switch and the pending timer. */
  predicate Valid(s: AppState)
  {
    0 <= s.batteryLevel <= 100 && 0 <= s.signalStrength <= 100 && s.gasLevel >= 0 &&
    (s.connectionStatus == Disconnected <==> !s.robotActive) &&
    (s.connectionStatus == Connecting <==> s.robotActive && s.connectTimerPending) &&
    (s.connectTimerPending ==> s.robotActive)
  }

  datatype Event =
    | Control(direction: Direction)                          // a controller's onControl
    | Swiped(swipe: Gesture.Swipe)                           // a swipe handler of the gesture hook
    | ToggleRobot                                            // the emergency-stop button
    | ConnectTimerFires                                      // the 2 s timer comes due
    | SensorTick(batteryDrop: bool, gasRise: bool, signalRise: bool)  // the 5 s interval, with its random choices
    | SwitchController(kind: ControllerType)
    | ToggleMenu

  function HandleControl(s: AppState, d: Direction): AppState
  {
    if !s.robotActive || s.connectionStatus != Connected then s else s.(lastAction := d)
  }

  function Step(s: AppState, ev: Event): AppState
  {
    match ev
    case Control(d) => HandleControl(s, d)
    case Swiped(w) => HandleControl(s, SwipeDirection(w))
    case ToggleRobot =>
      var active := !s.robotActive;
      s.(robotActive := active, connectionStatus := if active then Connecting else Disconnected,
         connectTimerPending := active)
    case ConnectTimerFires =>
      if s.connectTimerPending then s.(connectionStatus := Connected, connectTimerPending := false) else s
    case SensorTick(drop, gasRise, signalRise) =>
      if s.connectionStatus != Connected then s
      else s.(batteryLevel := BatteryTick(s.batteryLevel, drop),
              gasLevel := GasTick(s.gasLevel, gasRise),
              signalStrength := SignalTick(s.signalStrength, signalRise))
    case SwitchController(t) => s.(controllerType := t, isMenuOpen := false)
    case ToggleMenu => s.(isMenuOpen := !s.isMenuOpen)
  }

  function Run(s: AppState, evs: seq<Event>): AppState
    decreases |evs|
  {
    if evs == [] then s else Run(Step(s, evs[0]), evs[1..])
  }

  lemma LaunchIsValid()
    ensures Valid(Launch) && IsDisabled(Launch)
  {
  }

  lemma StepKeepsValid(s: AppState, ev: Event)
    requires Valid(s)
    ensures Valid(Step(s, ev))
  {
    if ev.SensorTick? && s.connectionStatus == Connected {
      TicksStayInRange(s.batteryLevel, s.gasLevel, s.signalStrength, ev.batteryDrop, ev.gasRise, ev.signalRise);
    }
  }

  lemma {:induction false} RunKeepsValid(s: AppState, evs: seq<Event>)
    requires Valid(s)
    ensures Valid(Run(s, evs))
    decreases |evs|
  {
    if evs != [] {
      StepKeepsValid(s, evs[0]);
      RunKeepsValid(Step(s, evs[0]), evs[1..]);
    }
  }

  /** A command, from a controller or a swipe, is recorded exactly when the
      controllers are enabled; otherwise nothing changes. */
  lemma CommandsNeedEnabledControllers(s: AppState, ev: Event)
    requires ev.Control? || ev.Swiped?
    ensures var d := if ev.Control? then ev.direction else SwipeDirection(ev.swipe);
      Step(s, ev) == if IsDisabled(s) then s else s.(lastAction := d)
  {
  }

  /** In every reachable state the controllers are disabled exactly when
      the robot is not connected: being connected implies being switched on. */
  lemma DisabledMeansNotConnected(s: AppState)
    requires Valid(s)
    ensures IsDisabled(s) <==> s.connectionStatus != Connected
  {
  }

  /** Switching off disconnects; switching on starts connecting and arms the
      timer, which then connects. */
  lemma ToggleDrivesConnection(s: AppState)
    ensures Step(s, ToggleRobot).robotActive == !s.robotActive
    ensures !s.robotActive ==> Step(s, ToggleRobot).connectionStatus == Connecting &&
                               Step(Step(s, ToggleRobot), ConnectTimerFires).connectionStatus == Connected
    ensures s.robotActive ==> Step(s, ToggleRobot).connectionStatus == Disconnected &&
                              Step(Step(s, ToggleRobot), ConnectTimerFires).connectionStatus == Disconnected
  {
  }

  /** Choosing a controller selects it and closes the menu. */
  lemma SwitchSelectsAndCloses(s: AppState, t: ControllerType)
    ensures Step(s, SwitchController(t)) == s.(controllerType := t, isMenuOpen := false)
  {
  }

  /** Without the connection timer firing, a robot that is not connected
      never becomes connected and no command is ever recorded. */
  lemma {:induction false} NoConnectionWithoutTimer(s: AppState, evs: seq<Event>)
    requires s.connectionStatus != Connected
    requires forall e | e in evs :: !e.ConnectTimerFires?
    ensures Run(s, evs).connectionStatus != Connected
    ensures Run(s, evs).lastAction == s.lastAction
    decreases |evs|
  {
    if evs != [] {
      assert evs[0] in evs;
      NoConnectionWithoutTimer(Step(s, evs[0]), evs[1..]);
    }
  }

  /** From launch: switch on, wait for the timer, swipe up: `forward` is
      recorded.  Switching off before the timer fires cancels it, and the
      same swipe is ignored. */
  lemma ConnectThenSwipe()
    ensures Run(Launch, [ToggleRobot, ConnectTimerFires, Swiped(Gesture.SwipeUp)]).lastAction == Forward
    ensures Run(Launch, [ToggleRobot, ToggleRobot, ConnectTimerFires, Swiped(Gesture.SwipeUp)]).lastAction == Neutral
  {
    var on := Step(Launch, ToggleRobot);
    var connected := Step(on, ConnectTimerFires);
    assert connected.connectionStatus == Connected && connected.robotActive;
    assert Run(connected, [Swiped(Gesture.SwipeUp)]) == Step(connected, Swiped(Gesture.SwipeUp));
    assert [ToggleRobot, ConnectTimerFires, Swiped(Gesture.SwipeUp)][1..] == [ConnectTimerFires, Swiped(Gesture.SwipeUp)];
    var off := Step(on, ToggleRobot);
    assert off == Launch;
    assert Step(off, ConnectTimerFires) == Launch;
  }

  /** The application component: its state hooks as fields. */
  class RobotApp {
    var robotActive: bool
    var connectionStatus: ConnectionStatus
    var batteryLevel: int
    var gasLevel: int
    var signalStrength: int
    var lastAction: Direction
    var controllerType: ControllerType
    var isMenuOpen: bool
    var connectTimerPending: bool

    function State(): AppState
      reads this
    {
      AppState(robotActive, connectionStatus, batteryLevel, gasLevel, signalStrength,
               lastAction, controllerType, isMenuOpen, connectTimerPending)
    }

    constructor ()
      ensures State() == Launch
    {
      robotActive, connectionStatus := false, Disconnected;
      batteryLevel, gasLevel, signalStrength := 85, 50, 78;
      lastAction, controllerType, isMenuOpen := Neutral, PadController, false;
      connectTimerPending := false;
    }

    /** The `disabled` prop handed to the controllers.  In every state the
        invariant admits, it is exactly "not connected". */
    function Disabled(): (r: bool)
      reads this
      ensures r == IsDisabled(State())
      ensures Valid(State()) ==> (r <==> connectionStatus != Connected)
    {
      !robotActive || connectionStatus != Connected
    }

    method HandleControl(d: Direction)
      modifies this
      ensures State() == Step(old(State()), Control(d))
    {
      if !robotActive || connectionStatus != Connected {
        return;
      }
      lastAction := d;
    }

    /** The four swipe handlers the application gives the gesture hook. */
    method HandleSwipe(w: Gesture.Swipe)
      modifies this
      ensures State() == Step(old(State()), Swiped(w))
    {
      HandleControl(SwipeDirection(w));
    }

    /** Flip the switch, then run the connection effect: its clean-up
      clears any pending timer, and it either starts connecting (arming a
      fresh timer) or disconnects. */
    method HandleToggleRobot()
      modifies this
      ensures State() == Step(old(State()), ToggleRobot)
    {
      robotActive := !robotActive;
      connectTimerPending := false;
      if robotActive {
        connectionStatus := Connecting;
        connectTimerPending := true;
      } else {
        connectionStatus := Disconnected;
      }
    }

    /** The 2 s timer's callback. */
    method OnConnectTimer()
      modifies this
      ensures State() == Step(old(State()), Event.ConnectTimerFires)
    {
      if connectTimerPending {
        connectTimerPending := false;
        connectionStatus := Connected;
      }
    }

    /** The sensor interval's callback; it only runs while connected. */
    method OnSensorInterval(batteryDrop: bool, gasRise: bool, signalRise: bool)
      modifies this
      ensures State() == Step(old(State()), Event.SensorTick(batteryDrop, gasRise, signalRise))
    {
      if connectionStatus != Connected {
        return;
      }
      batteryLevel := ClampPercent(batteryLevel + if batteryDrop then -1 else 0);
      gasLevel := FloorAtZero(gasLevel + if gasRise then 5 else -5);
      signalStrength := ClampPercent(signalStrength + if signalRise then 2 else -2);
    }

    method SwitchController(t: ControllerType)
      modifies this
      ensures State() == Step(old(State()), Event.SwitchController(t))
    {
      controllerType := t;
      isMenuOpen := false;
    }

    method ToggleMenu()
      modifies this
      ensures State() == Step(old(State()), Event.ToggleMenu)
    {
      isMenuOpen := !isMenuOpen;
    }
  }
}
