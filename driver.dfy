/**
 * The `HCSR04` driver object (HCSR04.cpp). The class `Sensor` keeps the C++
 * fields and updates them in place; `State` and `Step` give the same object as
 * a value and each operation as a function on it, so that sequences of
 * operations can be reasoned about (module Traces). Pin writes are modelled by
 * their effect: the level last written on each indicator output, and a count
 * of the trigger sequences sent.
 */
module Driver {
  import opened Header
  import opened Ranges
  import opened Conversion

  /** The mutable part of a driver object, as a value. */
  datatype State = State(runState: RunState, signal: bool, zones: ZoneConfig, leds: Leds, triggers: nat)

  /** The public operations that change a driver's state. */
  datatype Op =
    | PauseOp | RunOp | StopOp
    | PingOp(duration: Long)
    | SetRedOp(from: Short, to: Short) | SetYellowOp(from: Short, to: Short) | SetGreenOp(from: Short, to: Short)
    | SignalOnOp | SignalOffOp

  /** The state right after construction: default zones, signalling evaluated, Created, no output written. */
  function Initial(): State
  {
    State(Created, DistancesSet(DefaultZones), DefaultZones, Leds(Unwritten, Unwritten, Unwritten), 0)
  }

  /** The value `ping` returns (and hands to `checkRange`) in state `s` for an echo of `duration`. */
  function PingResult(s: State, duration: Long): real
  {
    if s.runState == Running then EchoToDistance(duration) else ERR_RUNSTATE as real
  }

  /** The effect of `checkRange(distance)`. */
  function CheckRangeState(s: State, distance: real): State
  {
    s.(leds := Drive(s.signal, ToShort(distance), s.zones, s.leds))
  }

  function Step(s: State, op: Op): State
  {
    match op
    case PauseOp => s.(runState := Paused)
    case RunOp => s.(signal := DistancesSet(s.zones), runState := Running)
    case StopOp => s.(runState := Stopped)
    case PingOp(duration) =>
      var fired := if s.runState == Running then s.triggers + 1 else s.triggers;
      CheckRangeState(s.(triggers := fired), PingResult(s, duration))
    case SetRedOp(from, to) => s.(zones := s.zones.(red := Bounds(from, to)))
    case SetYellowOp(from, to) => s.(zones := s.zones.(yellow := Bounds(from, to)))
    case SetGreenOp(from, to) => s.(zones := s.zones.(green := Bounds(from, to)))
    case SignalOnOp => s.(signal := DistancesSet(s.zones))
    case SignalOffOp => s.(signal := false)
  }

  /** `pause`, `stop` and `run` reach their state from any state and are idempotent. */
  lemma LifecycleFromAnyState(s: State)
    ensures Step(s, PauseOp).runState == Paused
    ensures Step(s, StopOp).runState == Stopped
    ensures Step(s, RunOp).runState == Running
    ensures Step(Step(s, PauseOp), PauseOp) == Step(s, PauseOp)
    ensures Step(Step(s, StopOp), StopOp) == Step(s, StopOp)
    ensures Step(Step(s, RunOp), RunOp) == Step(s, RunOp)
  {
  }

  /** Only `run`, `signalOn` and `signalOff` change the signalling flag. */
  lemma SignalChangedOnlyBySignalOps(s: State, op: Op)
    requires !op.RunOp? && !op.SignalOnOp? && !op.SignalOffOp?
    ensures Step(s, op).signal == s.signal
  {
  }

  /** Turning signalling off and on again restores it exactly when the zones are fully configured. */
  lemma SignalOffThenOn(s: State)
    ensures !Step(s, SignalOffOp).signal
    ensures Step(Step(s, SignalOffOp), SignalOnOp).signal == DistancesSet(s.zones)
  {
  }

  /** A zone setter stores its pair in its own zone and changes nothing else. */
  lemma SettersIsolated(s: State, from: Short, to: Short)
    ensures Step(s, SetRedOp(from, to)) == s.(zones := ZoneConfig(Bounds(from, to), s.zones.yellow, s.zones.green))
    ensures Step(s, SetYellowOp(from, to)) == s.(zones := ZoneConfig(s.zones.red, Bounds(from, to), s.zones.green))
    ensures Step(s, SetGreenOp(from, to)) == s.(zones := ZoneConfig(s.zones.red, s.zones.yellow, Bounds(from, to)))
  {
  }

  /** The constructed driver is Created and signalling, since the defaults are fully configured. */
  lemma InitialSignals()
    ensures Initial().runState == Created && Initial().signal
    ensures Initial().zones == DefaultZones
  {
  }

  /**
   * A `ping` while not running returns the run-state sentinel, sends no trigger,
   * and, when signalling is on over fully configured zones, leaves every output as it was.
   */
  lemma NotRunningPingHoldsOutputs(s: State, duration: Long)
    requires s.runState != Running
    requires s.signal && DistancesSet(s.zones)
    ensures PingResult(s, duration) == ERR_RUNSTATE as real
    ensures Step(s, PingOp(duration)) == s
  {
  }

  /** A running `ping` with a non-negative echo never returns the run-state sentinel. */
  lemma RunningPingNotSentinel(s: State, duration: Long)
    requires s.runState == Running && 0 <= duration
    ensures PingResult(s, duration) >= 0.0
    ensures PingResult(s, duration) != ERR_RUNSTATE as real
  {
  }

  /** A driver object. Pin numbers are fixed at construction; `NO_LED` means unassigned. */
  class Sensor {
    const pinTrigger: int
    const pinEcho: int
    const pinRedSignal: int
    const pinYellowSignal: int
    const pinGreenSignal: int

    var runState: RunState
    var signal: bool

    var rangeRedFrom: Short
    var rangeRedTo: Short
    var rangeYellowFrom: Short
    var rangeYellowTo: Short
    var rangeGreenFrom: Short
    var rangeGreenTo: Short

    /** Levels last written on the red, yellow and green indicator outputs. */
    var redLevel: Level
    var yellowLevel: Level
    var greenLevel: Level

    /** Number of trigger sequences sent on the trigger pin. */
    var triggers: nat

    function Zones(): ZoneConfig
      reads this
    {
      ZoneConfig(Bounds(rangeRedFrom, rangeRedTo),
                 Bounds(rangeYellowFrom, rangeYellowTo),
                 Bounds(rangeGreenFrom, rangeGreenTo))
    }

    function Outputs(): Leds
      reads this
    {
      Leds(redLevel, yellowLevel, greenLevel)
    }

    /** The object's state as a value. */
    function Model(): State
      reads this
    {
      State(runState, signal, Zones(), Outputs(), triggers)
    }

    constructor (triggerPin: int, echoPin: int, redPin: int := NO_LED, yellowPin: int := NO_LED, greenPin: int := NO_LED)
      ensures pinTrigger == triggerPin && pinEcho == echoPin
      ensures pinRedSignal == redPin && pinYellowSignal == yellowPin && pinGreenSignal == greenPin
      ensures runState == Created && signal && Zones() == DefaultZones
      ensures Model() == Initial()
    {
      pinTrigger, pinEcho := triggerPin, echoPin;
      pinRedSignal, pinYellowSignal, pinGreenSignal := redPin, yellowPin, greenPin;
      redLevel, yellowLevel, greenLevel := Unwritten, Unwritten, Unwritten;
      triggers := 0;
      new;
      SignalOff();
      var status := SetGreenRange(DISTANCE_GREEN_FROM, DISTANCE_GREEN_TO);
      status := SetYellowRange(DISTANCE_YELLOW_FROM, DISTANCE_YELLOW_TO);
      status := SetRedRange(DISTANCE_RED_FROM, DISTANCE_RED_TO);
      SignalOn();
      runState := Created;
    }

    method Pause() returns (r: int)
      modifies this
      ensures r == RUNSTATE_PAUSED && runState == Paused
      ensures Model() == Step(old(Model()), PauseOp)
    {
      runState := Paused;
      r := Code(runState);
    }

    method Run() returns (r: int)
      modifies this
      ensures r == RUNSTATE_RUNNING && runState == Running
      ensures signal == DistancesSet(Zones())
      ensures Model() == Step(old(Model()), RunOp)
    {
      SignalOn();
      runState := Running;
      r := Code(runState);
    }

    method Stop() returns (r: int)
      modifies this
      ensures r == RUNSTATE_STOPPED && runState == Stopped
      ensures Model() == Step(old(Model()), StopOp)
    {
      runState := Stopped;
      r := Code(runState);
    }

    /** Drives the indicator outputs for `distance`, truncated to `short`. */
    method CheckRange(distance: real)
      modifies this`redLevel, this`yellowLevel, this`greenLevel
      ensures Outputs() == Drive(signal, ToShort(distance), Zones(), old(Outputs()))
    {
      if signal {
        var checkValue := ToShort(distance);
        if IsInRange(checkValue, rangeRedFrom, rangeRedTo) {
          redLevel, yellowLevel, greenLevel := High, Low, Low;
        } else if IsInRange(checkValue, rangeYellowFrom, rangeYellowTo) {
          redLevel, yellowLevel, greenLevel := Low, High, Low;
        } else if IsInRange(checkValue, rangeGreenFrom, rangeGreenTo) {
          redLevel, yellowLevel, greenLevel := Low, Low, High;
        }
      } else {
        redLevel, yellowLevel, greenLevel := Low, Low, Low;
      }
    }

    /**
     * Measures a distance. `duration` is the echo pulse width the echo pin
     * would report; it is read only while running.
     */
    method Ping(duration: Long) returns (d: real)
      modifies this
      ensures d == if old(runState) == Running then EchoToDistance(duration) else ERR_RUNSTATE as real
      ensures triggers == if old(runState) == Running then old(triggers) + 1 else old(triggers)
      ensures Outputs() == Drive(signal, ToShort(d), Zones(), old(Outputs()))
      ensures Model() == Step(old(Model()), PingOp(duration))
    {
      if runState == Running {
        triggers := triggers + 1;
        d := EchoToDistance(duration);
      } else {
        d := ERR_RUNSTATE as real;
      }
      CheckRange(d);
    }

    method SetGreenRange(from: Short, to: Short) returns (r: int)
      modifies this
      ensures r == ERR_OK && rangeGreenFrom == from && rangeGreenTo == to
      ensures Model() == Step(old(Model()), SetGreenOp(from, to))
    {
      rangeGreenFrom, rangeGreenTo := from, to;
      r := ERR_OK;
    }

    method SetYellowRange(from: Short, to: Short) returns (r: int)
      modifies this
      ensures r == ERR_OK && rangeYellowFrom == from && rangeYellowTo == to
      ensures Model() == Step(old(Model()), SetYellowOp(from, to))
    {
      rangeYellowFrom, rangeYellowTo := from, to;
      r := ERR_OK;
    }

    method SetRedRange(from: Short, to: Short) returns (r: int)
      modifies this
      ensures r == ERR_OK && rangeRedFrom == from && rangeRedTo == to
      ensures Model() == Step(old(Model()), SetRedOp(from, to))
    {
      rangeRedFrom, rangeRedTo := from, to;
      r := ERR_OK;
    }

    /** Enables signalling only if all six bounds are defined and positive. */
    method SignalOn()
      modifies this
      ensures signal == DistancesSet(Zones())
      ensures Model() == Step(old(Model()), SignalOnOp)
    {
      signal := DistancesSet(Zones());
    }

    method SignalOff()
      modifies this
      ensures !signal
      ensures Model() == Step(old(Model()), SignalOffOp)
    {
      signal := false;
    }

    method Signal() returns (on: bool)
      ensures on == signal
    {
      on := signal;
    }
  }

  /**
   * Construct with the indicator pins left at their defaults, run, pause: the
   * sensor is Created and signalling at first, and the paused ping returns the
   * run-state sentinel without sending a trigger.
   */
  method PausedPingScenario(duration: Long) returns (d: real, triggers: nat)
    ensures d == ERR_RUNSTATE as real
    ensures triggers == 0
  {
    var sensor := new Sensor(2, 3);
    assert sensor.pinRedSignal == NO_LED && sensor.pinYellowSignal == NO_LED && sensor.pinGreenSignal == NO_LED;
    assert sensor.runState == Created && sensor.signal;
    var state := sensor.Run();
    assert state == RUNSTATE_RUNNING;
    state := sensor.Pause();
    assert state == RUNSTATE_PAUSED;
    d := sensor.Ping(duration);
    triggers := sensor.triggers;
  }
}
