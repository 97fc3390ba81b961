/** The vehicle controller (api/drone_controller.py): connect, arm and take
    off, enter offboard mode, then fly the mission loop, recording each
    stage in the shared health entry; plus the telemetry loops that overwrite
    the shared position, velocity and battery records.

    Every call into the vehicle SDK is replaced by its outcome, passed in as a
    parameter: the connection-state stream, whether arm and takeoff raised,
    and how the two offboard calls ended. */
module DroneController {
  import opened Wrappers

  /** The values the controller writes to the shared "health" entry. */
  datatype Health = Connected | Timeout | Error | Flying | TakeoffError | Offboard | OffboardError

  /** The exact string stored for each health value. */
  function HealthText(h: Health): string
  {
    match h
    case Connected => "connected"
    case Timeout => "timeout"
    case Error => "error"
    case Flying => "flying"
    case TakeoffError => "takeoff_error"
    case Offboard => "offboard"
    case OffboardError => "offboard_error"
  }

  /** Seconds after the start of the wait at which a disconnected state counts as a timeout. */
  const ConnectTimeoutS: real := 30.0

  /** One item of the connection-state stream: a state with the time elapsed
      since the wait began, or an exception (from `connect` or the stream). */
  datatype ConnEvent = State(isConnected: bool, elapsed: real) | Raised

  /** How `_connect` ends. `StreamEnded` is the stream running out, where the
      source falls off the end of the function and returns None. */
  datatype ConnectResult = Succeeded | TimedOut | Failed | StreamEnded {
    /** The truth value of what `_connect` returns. */
    predicate Ok() { Succeeded? }
  }

  /** `_connect` on a given stream: the first connected state wins, checked
      before the timeout; an exception ends the wait. */
  function ConnectOutcome(events: seq<ConnEvent>): ConnectResult
  {
    if events == [] then StreamEnded
    else match events[0]
      case Raised => Failed
      case State(connected, elapsed) =>
        if connected then Succeeded
        else if elapsed > ConnectTimeoutS then TimedOut
        else ConnectOutcome(events[1..])
  }

  /** The shared health entry after `_connect`, from the one it held before. */
  function HealthAfterConnect(r: ConnectResult, before: Option<Health>): (h: Option<Health>)
    ensures r.Ok() ==> h == Some(Connected)
    ensures r == StreamEnded ==> h == before
    ensures r == TimedOut ==> h == Some(Timeout)
    ensures r == Failed ==> h == Some(Error)
  {
    match r
    case Succeeded => Some(Connected)
    case TimedOut => Some(Timeout)
    case Failed => Some(Error)
    case StreamEnded => before
  }

  // An independent reading of `_connect`: the outcome is decided by the
  // first event that is not a disconnected state within the timeout.

  predicate Undecided(e: ConnEvent)
  {
    e.State? && !e.isConnected && e.elapsed <= ConnectTimeoutS
  }

  predicate AllUndecided(s: seq<ConnEvent>)
  {
    forall j :: 0 <= j < |s| ==> Undecided(s[j])
  }

  function Decision(e: ConnEvent): ConnectResult
    requires !Undecided(e)
  {
    if e.Raised? then Failed else if e.isConnected then Succeeded else TimedOut
  }

  /** The index of the first deciding event, or the length when there is none. */
  function FirstDecided(events: seq<ConnEvent>): (k: nat)
    ensures k <= |events| && AllUndecided(events[..k])
    ensures k < |events| ==> !Undecided(events[k])
  {
    if events == [] then 0
    else if Undecided(events[0]) then
      var k := 1 + FirstDecided(events[1..]);
      assert events[..k] == [events[0]] + events[1..][..k - 1];
      k
    else 0
  }

  lemma {:induction false} ConnectDecidedBy(events: seq<ConnEvent>, k: nat)
    requires k < |events| && AllUndecided(events[..k]) && !Undecided(events[k])
    ensures ConnectOutcome(events) == Decision(events[k])
  {
    if k > 0 {
      assert events[..k][0] == events[0];
      assert events[1..][..k - 1] == events[..k][1..];
      ConnectDecidedBy(events[1..], k - 1);
    }
  }

  lemma {:induction false} ConnectRunsOut(events: seq<ConnEvent>)
    requires AllUndecided(events)
    ensures ConnectOutcome(events) == StreamEnded
  {
    if events != [] {
      assert Undecided(events[0]);
      ConnectRunsOut(events[1..]);
    }
  }

  /** `_connect` reports the decision of the first deciding event: a connected
      state is success (even after the timeout), a disconnected state past
      30 s is a timeout, an exception is an error; with no deciding event
      the stream runs out. */
  lemma ConnectOutcomeIsFirstDecision(events: seq<ConnEvent>)
    ensures var k := FirstDecided(events);
            ConnectOutcome(events) == if k == |events| then StreamEnded else Decision(events[k])
  {
    var k := FirstDecided(events);
    if k == |events| {
      assert events[..k] == events;
      ConnectRunsOut(events);
    } else {
      ConnectDecidedBy(events, k);
    }
  }

  /** What `run` leaves in the health entry when the wait does not connect:
      a disconnected state past 30 s first gives "timeout", an exception first
      gives "error", and no stage after the connection is attempted. */
  lemma ConnectFailureHealth(before: Option<Health>, altitude: real, events: seq<ConnEvent>, armOk: bool, takeoffOk: bool,
                             setPosition: CallOutcome, start: CallOutcome)
    ensures var k := FirstDecided(events);
            var r := RunSpec(before, altitude, events, armOk, takeoffOk, setPosition, start);
            && (k < |events| && events[k].Raised? ==> r.health == Some(Error) && r.steps == [])
            && (k < |events| && events[k].State? && !events[k].isConnected ==>
                  events[k].elapsed > ConnectTimeoutS && r.health == Some(Timeout) && r.steps == [])
            && (k < |events| && events[k].State? && events[k].isConnected ==> Arm in r.steps)
            && (k == |events| ==> r.health == before && r.steps == [])
  {
    ConnectOutcomeIsFirstDecision(events);
  }

  /** How the offboard SDK calls end. */
  datatype CallOutcome = Returned | RaisedOffboardError | RaisedOther

  /** How `_enable_offboard` ends: True, False, or an exception it does not catch. */
  datatype OffboardResult = Enabled | Refused | Escaped

  /** `start` is only called once `set_position_ned` has returned. */
  function OffboardOutcome(setPosition: CallOutcome, start: CallOutcome): (r: OffboardResult)
    ensures r == Enabled <==> setPosition == Returned && start == Returned
    ensures r == Refused <==> (setPosition == RaisedOffboardError || (setPosition == Returned && start == RaisedOffboardError))
  {
    var first := if setPosition == Returned then start else setPosition;
    match first
    case Returned => Enabled
    case RaisedOffboardError => Refused
    case RaisedOther => Escaped
  }

  /** The requests the controller makes, in order. */
  datatype Step =
    | StartTelemetry
    | Arm
    | Takeoff
    | SetPositionNed(north: real, east: real, down: real, yaw: real)
    | StartOffboard
    | StartMission

  /** The hold position sent before offboard is started: 0, 0, -altitude, yaw 0. */
  function HoldPosition(altitude: real): Step
  {
    SetPositionNed(0.0, 0.0, -altitude, 0.0)
  }

  function TakeoffCalls(armOk: bool): seq<Step>
  {
    if armOk then [Arm, Takeoff] else [Arm]
  }

  function OffboardCalls(altitude: real, setPosition: CallOutcome): seq<Step>
  {
    if setPosition == Returned then [HoldPosition(altitude), StartOffboard] else [HoldPosition(altitude)]
  }

  datatype RunOutcome = RunOutcome(steps: seq<Step>, health: Option<Health>)

  /** `run` on the given outcomes: the steps it issues and the final health.
      It stops at the first failing stage. */
  function RunSpec(before: Option<Health>, altitude: real, events: seq<ConnEvent>, armOk: bool, takeoffOk: bool,
                   setPosition: CallOutcome, start: CallOutcome): (r: RunOutcome)
    // no arm without a connection
    ensures Arm in r.steps <==> ConnectOutcome(events).Ok()
    // takeoff only after a successful arm
    ensures Takeoff in r.steps <==> ConnectOutcome(events).Ok() && armOk
    // no offboard without a successful takeoff
    ensures StartOffboard in r.steps ==> armOk && takeoffOk && setPosition == Returned
    // the mission loop starts exactly when every stage succeeded
    ensures StartMission in r.steps <==>
              ConnectOutcome(events).Ok() && armOk && takeoffOk && setPosition == Returned && start == Returned
    ensures r.health == Some(Offboard) <==>
              StartMission in r.steps || (ConnectOutcome(events) == StreamEnded && before == Some(Offboard))
    ensures !ConnectOutcome(events).Ok() ==> r == RunOutcome([], HealthAfterConnect(ConnectOutcome(events), before))
    ensures ConnectOutcome(events).Ok() && !(armOk && takeoffOk) ==> r.health == Some(TakeoffError)
    ensures ConnectOutcome(events).Ok() && armOk && takeoffOk ==>
              r.health == match OffboardOutcome(setPosition, start)
                          case Enabled => Some(Offboard)
                          case Refused => Some(OffboardError)
                          case Escaped => Some(Error)
  {
    var c := ConnectOutcome(events);
    if !c.Ok() then RunOutcome([], HealthAfterConnect(c, before))
    else
      var armed := [StartTelemetry] + TakeoffCalls(armOk);
      if !(armOk && takeoffOk) then RunOutcome(armed, Some(TakeoffError))
      else
        var offboard := armed + OffboardCalls(altitude, setPosition);
        match OffboardOutcome(setPosition, start)
        case Enabled => RunOutcome(offboard + [StartMission], Some(Offboard))
        case Refused => RunOutcome(offboard, Some(OffboardError))
        case Escaped => RunOutcome(offboard, Some(Error))
  }

  /** A position sample from the telemetry stream. */
  datatype PositionSample = PositionSample(latitudeDeg: real, longitudeDeg: real, absoluteAltitudeM: real)
  /** A velocity sample in the north-east-down frame, in m/s. */
  datatype VelocityNed = VelocityNed(northMS: real, eastMS: real, downMS: real)
  /** A battery sample. */
  datatype BatterySample = BatterySample(remainingPercent: real, voltageV: real)

  /** The shared records: `{lat, lon, abs_alt}`, `{x, y, z}`, `{level, voltage, temperature}`. */
  datatype PositionRecord = PositionRecord(lat: real, lon: real, absAlt: real)
  datatype VelocityRecord = VelocityRecord(x: real, y: real, z: real)
  datatype BatteryRecord = BatteryRecord(level: real, voltage: real, temperature: real)

  function PositionRecordOf(p: PositionSample): (r: PositionRecord)
    ensures r.lat == p.latitudeDeg && r.lon == p.longitudeDeg && r.absAlt == p.absoluteAltitudeM
  {
    PositionRecord(p.latitudeDeg, p.longitudeDeg, p.absoluteAltitudeM)
  }

  /** North, east and down become x, y and z. */
  function VelocityRecordOf(v: VelocityNed): (r: VelocityRecord)
    ensures r.x == v.northMS && r.y == v.eastMS && r.z == v.downMS
  {
    VelocityRecord(v.northMS, v.eastMS, v.downMS)
  }

  /** The SDK gives no temperature, so every battery record carries 25.0. */
  const FixedTemperature: real := 25.0

  function BatteryRecordOf(b: BatterySample): (r: BatteryRecord)
    ensures r.level == b.remainingPercent && r.voltage == b.voltageV
    ensures r.temperature == 25.0
  {
    BatteryRecord(b.remainingPercent, b.voltageV, FixedTemperature)
  }

  /** The controller with the shared-state entries it writes. */
  class Controller {
    const altitude: real
    var health: Option<Health>
    var position: Option<PositionRecord>
    var velocity: Option<VelocityRecord>
    var battery: Option<BatteryRecord>
    /** Every request issued so far, in order. */
    var steps: seq<Step>

    /** The shared entries start absent, as in a fresh `shared_state`. */
    constructor (altitude: real)
      ensures this.altitude == altitude
      ensures health == None && position == None && velocity == None && battery == None
      ensures steps == []
    {
      this.altitude := altitude;
      health, position, velocity, battery := None, None, None, None;
      steps := [];
    }

    /** `_connect`: wait on the connection-state stream. */
    method Connect(events: seq<ConnEvent>) returns (r: ConnectResult)
      modifies this`health
      ensures r == ConnectOutcome(events)
      ensures health == HealthAfterConnect(r, old(health))
    {
      var i := 0;
      while i < |events|
        invariant 0 <= i <= |events|
        invariant ConnectOutcome(events[i..]) == ConnectOutcome(events)
        invariant health == old(health)
      {
        assert events[i..][1..] == events[i + 1..];
        match events[i]
        case Raised =>
          health := Some(Error);
          return Failed;
        case State(connected, elapsed) =>
          if connected {
            health := Some(Connected);
            return Succeeded;
          }
          if elapsed > ConnectTimeoutS {
            health := Some(Timeout);
            return TimedOut;
          }
        i := i + 1;
      }
      return StreamEnded;
    }

    /** `_arm_and_takeoff`: takeoff is requested only once arm returned. */
    method ArmAndTakeoff(armOk: bool, takeoffOk: bool) returns (ok: bool)
      modifies this`health, this`steps
      ensures ok == (armOk && takeoffOk)
      ensures steps == old(steps) + TakeoffCalls(armOk)
      ensures health == Some(if ok then Flying else TakeoffError)
    {
      steps := steps + [Arm];
      if !armOk {
        health := Some(TakeoffError);
        return false;
      }
      steps := steps + [Takeoff];
      if !takeoffOk {
        health := Some(TakeoffError);
        return false;
      }
      health := Some(Flying);
      return true;
    }

    /** `_enable_offboard`: only an OffboardError is caught here; any other
        exception leaves health as it was and escapes to `run`. */
    method EnableOffboard(setPosition: CallOutcome, start: CallOutcome) returns (r: OffboardResult)
      modifies this`health, this`steps
      ensures r == OffboardOutcome(setPosition, start)
      ensures steps == old(steps) + OffboardCalls(altitude, setPosition)
      ensures health == match r
                        case Enabled => Some(Offboard)
                        case Refused => Some(OffboardError)
                        case Escaped => old(health)
    {
      steps := steps + [HoldPosition(altitude)];
      if setPosition != Returned {
        if setPosition == RaisedOffboardError {
          health := Some(OffboardError);
          return Refused;
        }
        return Escaped;
      }
      steps := steps + [StartOffboard];
      if start == RaisedOffboardError {
        health := Some(OffboardError);
        return Refused;
      } else if start == RaisedOther {
        return Escaped;
      }
      health := Some(Offboard);
      return Enabled;
    }

    /** `run`: the stages in order, each stopping the run when it fails; an
        exception escaping a stage is caught here and writes "error". The
        mission loop itself is not modelled: the run ends once it is started. */
    method Run(events: seq<ConnEvent>, armOk: bool, takeoffOk: bool, setPosition: CallOutcome, start: CallOutcome)
      modifies this`health, this`steps
      ensures var spec := RunSpec(old(health), altitude, events, armOk, takeoffOk, setPosition, start);
              steps == old(steps) + spec.steps && health == spec.health
    {
      ghost var steps0 := steps;
      var connected := Connect(events);
      if !connected.Ok() {
        return;
      }
      steps := steps + [StartTelemetry];
      var flying := ArmAndTakeoff(armOk, takeoffOk);
      assert steps == steps0 + ([StartTelemetry] + TakeoffCalls(armOk));
      if !flying {
        return;
      }
      var offboard := EnableOffboard(setPosition, start);
      assert steps == steps0 + ([StartTelemetry] + TakeoffCalls(armOk) + OffboardCalls(altitude, setPosition));
      if offboard == Escaped {
        health := Some(Error);
        return;
      }
      if offboard == Refused {
        return;
      }
      steps := steps + [StartMission];
    }

    /** `_position_telemetry`: each sample overwrites the shared position. */
    method PositionTelemetry(samples: seq<PositionSample>)
      modifies this`position
      ensures position == if samples == [] then old(position) else Some(PositionRecordOf(samples[|samples| - 1]))
    {
      for i := 0 to |samples|
        invariant position == if i == 0 then old(position) else Some(PositionRecordOf(samples[i - 1]))
      {
        position := Some(PositionRecordOf(samples[i]));
      }
    }

    /** `_velocity_telemetry`: each sample overwrites the shared velocity. */
    method VelocityTelemetry(samples: seq<VelocityNed>)
      modifies this`velocity
      ensures velocity == if samples == [] then old(velocity) else Some(VelocityRecordOf(samples[|samples| - 1]))
    {
      for i := 0 to |samples|
        invariant velocity == if i == 0 then old(velocity) else Some(VelocityRecordOf(samples[i - 1]))
      {
        velocity := Some(VelocityRecordOf(samples[i]));
      }
    }

    /** `_battery_telemetry`: each sample overwrites the shared battery record. */
    method BatteryTelemetry(samples: seq<BatterySample>)
      modifies this`battery
      ensures battery == if samples == [] then old(battery) else Some(BatteryRecordOf(samples[|samples| - 1]))
    {
      for i := 0 to |samples|
        invariant battery == if i == 0 then old(battery) else Some(BatteryRecordOf(samples[i - 1]))
      {
        battery := Some(BatteryRecordOf(samples[i]));
      }
    }
  }
}
