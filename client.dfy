/**
  The MAVLink vehicle client (internal/mavlink/client.go).

  One `Client` object holds what the Go struct holds: the link state taken from
  heartbeats, the telemetry record, the mission state and the ground-station
  announcer's stop signal. Each inbound message kind is a method; the blocking
  `UploadMission` is split into its events (start, per-item request, ack, the
  caller's receive, the 30 s timeout). Every transport send is appended to the
  ghost `outbox` whether or not the transport accepts it; the transport's answer
  is a parameter `sendErr` (None: accepted). Times are integer milliseconds.
 */
module Mavlink {
  import opened Wrappers
  import opened Decimal

  type uint8 = x: int | 0 <= x < 0x100
  type uint16 = x: int | 0 <= x < 0x1_0000
  type int32 = x: int | -0x8000_0000 <= x < 0x8000_0000

  // Constants of the MAVLink common message set.
  const MAV_CMD_NAV_WAYPOINT: int := 16
  const MAV_CMD_NAV_LOITER_UNLIM: int := 17
  const MAV_CMD_NAV_LOITER_TIME: int := 19
  const MAV_CMD_NAV_RETURN_TO_LAUNCH: int := 20
  const MAV_CMD_NAV_LAND: int := 21
  const MAV_CMD_NAV_TAKEOFF: int := 22
  const MAV_CMD_DO_SET_MODE: int := 176
  const MAV_CMD_COMPONENT_ARM_DISARM: int := 400
  const MAV_MODE_FLAG_SAFETY_ARMED: bv8 := 0x80
  const MAV_MODE_FLAG_CUSTOM_MODE_ENABLED: int := 1
  const MAV_MISSION_ACCEPTED: uint8 := 0
  const MAV_FRAME_GLOBAL_RELATIVE_ALT: int := 3
  const MAV_FRAME_GLOBAL_RELATIVE_ALT_INT: int := 6
  const MAV_DATA_STREAM_ALL: int := 0

  /** POSITION_TARGET_TYPEMASK bits (client.go:44-61). */
  const TYPEMASK_X_IGNORE: bv16 := 0x0001
  const TYPEMASK_Y_IGNORE: bv16 := 0x0002
  const TYPEMASK_Z_IGNORE: bv16 := 0x0004
  const TYPEMASK_VX_IGNORE: bv16 := 0x0008
  const TYPEMASK_VY_IGNORE: bv16 := 0x0010
  const TYPEMASK_VZ_IGNORE: bv16 := 0x0020
  const TYPEMASK_AX_IGNORE: bv16 := 0x0040
  const TYPEMASK_AY_IGNORE: bv16 := 0x0080
  const TYPEMASK_AZ_IGNORE: bv16 := 0x0100
  const TYPEMASK_FORCE_SET: bv16 := 0x0200
  const TYPEMASK_YAW_IGNORE: bv16 := 0x0400
  const TYPEMASK_YAW_RATE_IGNORE: bv16 := 0x0800

  /** The mask GoToPosition sends: ignore velocity, acceleration, yaw and yaw rate. */
  const PositionOnlyMask: bv16 :=
    TYPEMASK_VX_IGNORE | TYPEMASK_VY_IGNORE | TYPEMASK_VZ_IGNORE
    | TYPEMASK_AX_IGNORE | TYPEMASK_AY_IGNORE | TYPEMASK_AZ_IGNORE
    | TYPEMASK_YAW_IGNORE | TYPEMASK_YAW_RATE_IGNORE

  /** Heartbeat silence after which the link counts as lost (3 s). */
  const HeartbeatTimeoutMs: int := 3000
  /** WaitForConnection polls every 100 ms. */
  const PollPeriodMs: int := 100

  // ---------------------------------------------------------------- waypoints

  datatype WaypointAction =
    | ActionUnspecified
    | ActionTakeoff
    | ActionLand
    | ActionWaypoint
    | ActionLoiter
    | ActionHold
    | ActionUnrecognized(value: int)

  datatype Position = Position(Latitude: real, Longitude: real, Altitude: real)

  datatype Waypoint = Waypoint(
    Sequence: int32,
    Action: WaypointAction,
    Position: Position,
    HoldTimeSec: real,
    AcceptanceRadius: real,
    Heading: real)

  /** The MAV_CMD a waypoint's action is flown with; unknown actions fly as plain waypoints. */
  function MapWaypointAction(action: WaypointAction): (cmd: int)
    ensures cmd in {MAV_CMD_NAV_TAKEOFF, MAV_CMD_NAV_LAND, MAV_CMD_NAV_WAYPOINT,
                    MAV_CMD_NAV_LOITER_UNLIM, MAV_CMD_NAV_LOITER_TIME}
  {
    match action
    case ActionTakeoff => MAV_CMD_NAV_TAKEOFF
    case ActionLand => MAV_CMD_NAV_LAND
    case ActionWaypoint => MAV_CMD_NAV_WAYPOINT
    case ActionLoiter => MAV_CMD_NAV_LOITER_UNLIM
    case ActionHold => MAV_CMD_NAV_LOITER_TIME
    case _ => MAV_CMD_NAV_WAYPOINT
  }

  /** The action a navigation command stands for, the reverse reading of the table. */
  function ActionOfCommand(cmd: int): Option<WaypointAction> {
    if cmd == MAV_CMD_NAV_TAKEOFF then Some(ActionTakeoff)
    else if cmd == MAV_CMD_NAV_LAND then Some(ActionLand)
    else if cmd == MAV_CMD_NAV_WAYPOINT then Some(ActionWaypoint)
    else if cmd == MAV_CMD_NAV_LOITER_UNLIM then Some(ActionLoiter)
    else if cmd == MAV_CMD_NAV_LOITER_TIME then Some(ActionHold)
    else None
  }

  predicate NamedAction(a: WaypointAction) {
    a in {ActionTakeoff, ActionLand, ActionWaypoint, ActionLoiter, ActionHold}
  }

  /**
    The five named actions map to five distinct commands (each one recovered
    from its command); any other action is sent as a plain waypoint.
   */
  lemma MapWaypointActionRoundTrip(a: WaypointAction)
    ensures NamedAction(a) ==> ActionOfCommand(MapWaypointAction(a)) == Some(a)
    ensures !NamedAction(a) ==> MapWaypointAction(a) == MAV_CMD_NAV_WAYPOINT
  {
  }

  // ------------------------------------------------------------ wire messages

  /** Outbound messages, each as broadcast to target component 1. */
  datatype Msg =
    | GcsHeartbeat
    | SystemTime(timeUnixUsec: int, timeBootMs: int)
    | RequestDataStream(targetSystem: uint8, streamId: int, rateHz: int, startStop: int)
    | MissionCount(targetSystem: uint8, count: uint16)
    | MissionItemInt(targetSystem: uint8, seqNo: uint16, frame: int, command: int,
                     current: int, autocontinue: int,
                     param1: real, param2: real, param3: real, param4: real,
                     position: Position)
    | MissionClearAll(targetSystem: uint8)
    | MissionSetCurrent(targetSystem: uint8, seqNo: uint16)
    | CommandLong(targetSystem: uint8, command: int, param1: real, param2: real, param7: real)
    | SetPositionTargetGlobalInt(targetSystem: uint8, frame: int, typeMask: bv16, target: Position)

  /** The MISSION_ITEM_INT that answers a request for `wp` (sendMissionItem). */
  function MissionItemFor(systemID: uint8, wp: Waypoint): (m: Msg)
    ensures m.MissionItemInt? && m.targetSystem == systemID
    ensures m.seqNo == wp.Sequence % 0x1_0000
    ensures m.command == MapWaypointAction(wp.Action)
    ensures m.param1 == wp.HoldTimeSec && m.param2 == wp.AcceptanceRadius
            && m.param3 == 0.0 && m.param4 == wp.Heading
    ensures m.position == wp.Position
  {
    MissionItemInt(systemID, wp.Sequence % 0x1_0000, MAV_FRAME_GLOBAL_RELATIVE_ALT,
                   MapWaypointAction(wp.Action), 0, 1,
                   wp.HoldTimeSec, wp.AcceptanceRadius, 0.0, wp.Heading, wp.Position)
  }

  /**
    The reply carries the waypoint's own Sequence, not the requested index: it
    echoes the request exactly when the two agree modulo 2^16. For a list
    numbered 0, 1, 2, ... every reply echoes its request.
   */
  lemma ReplySeqEchoesRequestIff(systemID: uint8, wps: seq<Waypoint>, seqNo: uint16)
    requires seqNo < |wps|
    ensures MissionItemFor(systemID, wps[seqNo]).seqNo == seqNo <==> wps[seqNo].Sequence % 0x1_0000 == seqNo
    ensures wps[seqNo].Sequence == seqNo ==> MissionItemFor(systemID, wps[seqNo]).seqNo == seqNo
  {
  }

  /** GoToPosition's mask keeps the position fields and ignores everything else. */
  lemma PositionOnlyMaskHonoursPosition()
    ensures PositionOnlyMask & (TYPEMASK_X_IGNORE | TYPEMASK_Y_IGNORE | TYPEMASK_Z_IGNORE) == 0
    ensures PositionOnlyMask & TYPEMASK_FORCE_SET == 0
    ensures PositionOnlyMask | TYPEMASK_X_IGNORE | TYPEMASK_Y_IGNORE | TYPEMASK_Z_IGNORE
            | TYPEMASK_FORCE_SET == 0x0FFF
  {
  }

  // -------------------------------------------------------------- telemetry

  datatype TelemetryData = TelemetryData(
    Latitude: real, Longitude: real, Altitude: real,
    VelocityX: real, VelocityY: real, VelocityZ: real,
    Roll: real, Pitch: real, Yaw: real,
    Heading: real, GroundSpeed: real, VerticalSpeed: real,
    BatteryVoltage: real, BatteryRemaining: int32, BatteryCurrent: real,
    GPSAccuracy: real, SatelliteCount: int32,
    SensorsHealthy: bool,
    CustomMode: bv32, BaseMode: bv8,
    LastUpdate: int)

  /**
    SYS_STATUS health rule: healthy iff every enabled sensor reports healthy,
    `(health & enabled) == enabled`.
   */
  function SensorsHealthy(health: bv32, enabled: bv32): (ok: bool)
    ensures ok <==> enabled & !health == 0
  {
    health & enabled == enabled
  }

  /** A sensor that is not enabled never counts against health. */
  lemma DisabledSensorsIgnored(h1: bv32, h2: bv32, enabled: bv32)
    requires h1 & enabled == h2 & enabled
    ensures SensorsHealthy(h1, enabled) == SensorsHealthy(h2, enabled)
  {
  }

  /** Reporting more sensors healthy never turns a healthy status unhealthy. */
  lemma MoreHealthStaysHealthy(h1: bv32, h2: bv32, enabled: bv32)
    requires h1 & h2 == h1 && SensorsHealthy(h1, enabled)
    ensures SensorsHealthy(h2, enabled)
  {
  }

  // ----------------------------------------------------------------- errors

  datatype ClientError =
    | NotConnected
    | UploadInProgress
    | Transport(detail: string)
    | CountSendFailed(detail: string)
    | MissionUploadFailed(code: uint8)
    | MissionUploadTimeout
    | ConnectionTimeout
  {
    /** The text of the Go error value. */
    function Text(): string {
      match this
      case NotConnected => "not connected to drone"
      case UploadInProgress => "mission upload already in progress"
      case Transport(d) => d
      case CountSendFailed(d) => "failed to send MISSION_COUNT: " + d
      case MissionUploadFailed(c) => "mission upload failed: " + IntToString(c)
      case MissionUploadTimeout => "mission upload timeout"
      case ConnectionTimeout => "timeout waiting for heartbeat"
    }
  }

  /** A Go `error` result: nil or an error. */
  datatype Outcome = Success | Failure(error: ClientError)

  function SendOutcome(sendErr: Option<string>): Outcome {
    if sendErr.None? then Success else Failure(Transport(sendErr.value))
  }

  /** Where an upload stands after an event that may finish it. */
  datatype UploadStep = Waiting | Done(outcome: Outcome)

  /**
    The mission part of the client. `UploadComplete` says whether the
    completion channel field is still set (non-nil); the channel itself is the
    client's `slot`. `Downloading` and `DownloadComplete` are never used by the
    code and are not modelled.
   */
  datatype MissionState = MissionState(
    Uploading: bool,
    Waypoints: seq<Waypoint>,
    CurrentIndex: int,
    TotalCount: int,
    UploadComplete: bool,
    CurrentWaypoint: int32,
    TotalWaypoints: int32,
    MissionActive: bool)

  /** A heartbeat frame as it arrives: sender system and the two mode fields. */
  datatype HeartbeatFrame = HeartbeatFrame(sysID: uint8, baseMode: bv8, customMode: bv32)

  /** Inbound message kinds the listener dispatches on. */
  datatype Inbound =
    | Heartbeat(baseMode: bv8, customMode: bv32)
    | CommandAck(command: int, result: int)
    | StatusText(severity: int, text: string)
    | GlobalPositionInt(lat: int, lon: int, alt: int, vx: int, vy: int, vz: int)
    | Attitude(roll: real, pitch: real, yaw: real)
    | VfrHud(heading: int, groundspeed: real, climb: real)
    | SysStatus(voltageBattery: int, currentBattery: int, batteryRemaining: int32,
                sensorsHealth: bv32, sensorsEnabled: bv32)
    | GpsRawInt(eph: int, satellitesVisible: uint8)
    | MissionRequest(seqNo: uint16)
    | MissionRequestInt(seqNo: uint16)
    | MissionAck(ackType: uint8)
    | MissionCurrent(seqNo: uint16)
    | MissionItemReached(seqNo: uint16)
    | Unhandled

  function EmptyTelemetry(now: int): TelemetryData {
    TelemetryData(0.0, 0.0, 0.0, 0.0, 0.0, 0.0, 0.0, 0.0, 0.0, 0.0, 0.0, 0.0,
                  0.0, 0, 0.0, 0.0, 0, false, 0, 0, now)
  }

  const IdleMission: MissionState := MissionState(false, [], 0, 0, false, 0, 0, false)

  /**
    The polls WaitForConnection makes before it gives up: it polls at
    start, start + 100, ... and fails at the first poll later than the deadline.
   */
  function PollCount(timeoutMs: int): (n: nat)
    ensures n >= 1
    ensures PollPeriodMs * (n - 1) > timeoutMs
    ensures n >= 2 ==> PollPeriodMs * (n - 2) <= timeoutMs
  {
    if timeoutMs < 0 then 1 else timeoutMs / PollPeriodMs + 2
  }

  predicate ArrivesAt(arrivals: seq<Option<HeartbeatFrame>>, k: int) {
    0 <= k < |arrivals| && arrivals[k].Some?
  }

  class Client {
    var connected: bool
    var armed: bool
    var systemID: uint8
    var lastHeartbeat: int
    var port: string
    var baudRate: int
    var telemetry: TelemetryData
    var missionState: MissionState
    /** The one-slot completion channel the waiting upload receives from. */
    var slot: Option<Outcome>
    /** stopHeartbeat has been closed. */
    var closed: bool
    /** Every message handed to the transport, in order. */
    ghost var outbox: seq<Msg>
    /** Values delivered on the current upload session's completion channel. */
    ghost var deliveries: nat

    ghost predicate Valid()
      reads this
    {
      && (missionState.Uploading ==> missionState.UploadComplete && slot.None?)
      && deliveries <= 1
      && (missionState.UploadComplete ==> deliveries == 0 && slot.None?)
      && (slot.Some? ==> deliveries == 1)
      && missionState.TotalCount == |missionState.Waypoints|
      && missionState.CurrentIndex == 0
      && missionState.TotalWaypoints == 0
    }

    /** What IsConnected(now) answers: a heartbeat seen, at most 3 s ago. */
    ghost predicate LiveAt(now: int)
      reads this
    {
      connected && !(now - lastHeartbeat > HeartbeatTimeoutMs)
    }

    /** NewClient once the transport is open: not yet connected, idle, nothing sent. */
    constructor (port: string, baudRate: int, now: int)
      ensures Valid()
      ensures !connected && !armed && !closed && systemID == 0
      ensures this.port == port && this.baudRate == baudRate
      ensures telemetry == EmptyTelemetry(now) && missionState == IdleMission
      ensures slot.None? && outbox == []
    {
      connected := false;
      armed := false;
      systemID := 0;
      lastHeartbeat := 0;
      this.port := port;
      this.baudRate := baudRate;
      telemetry := EmptyTelemetry(now);
      missionState := IdleMission;
      slot := None;
      closed := false;
      outbox := [];
      deliveries := 0;
    }

    function GetTelemetry(): TelemetryData
      reads this
    {
      telemetry
    }

    function IsArmed(): bool
      reads this
    {
      armed
    }

    function GetSystemID(): uint8
      reads this
    {
      systemID
    }

    /** Mission progress as (current waypoint, total waypoints, active). */
    function GetMissionProgress(): (p: (int32, int32, bool))
      reads this
      requires Valid()
      ensures p.0 == missionState.CurrentWaypoint && p.2 == missionState.MissionActive
      ensures p.1 == 0
    {
      (missionState.CurrentWaypoint, missionState.TotalWaypoints, missionState.MissionActive)
    }

    /**
      The liveness read: drops `connected` once more than 3 s have passed
      since the last heartbeat, and never sets it.
     */
    method IsConnected(now: int) returns (r: bool)
      modifies this`connected
      ensures connected == old(LiveAt(now))
      ensures r == connected
      ensures !old(connected) ==> !r
    {
      if connected && now - lastHeartbeat > HeartbeatTimeoutMs {
        connected := false;
      }
      r := connected;
    }

    // ------------------------------------------------------ inbound handlers

    /**
      HEARTBEAT: the link is up, the sender is the system, the time is the
      heartbeat's, armed follows the safety-armed flag, and both modes are stored.
     */
    twostate predicate HeartbeatEffect(baseMode: bv8, customMode: bv32, sysID: uint8, now: int)
      reads this
    {
      && connected && systemID == sysID && lastHeartbeat == now
      && (armed <==> baseMode & MAV_MODE_FLAG_SAFETY_ARMED != 0)
      && telemetry == old(telemetry).(CustomMode := customMode, BaseMode := baseMode)
    }

    method OnHeartbeat(baseMode: bv8, customMode: bv32, sysID: uint8, now: int)
      requires Valid()
      modifies this`connected, this`systemID, this`lastHeartbeat, this`armed, this`telemetry
      ensures Valid()
      ensures HeartbeatEffect(baseMode, customMode, sysID, now)
      ensures LiveAt(now)
    {
      connected := true;
      systemID := sysID;
      lastHeartbeat := now;
      armed := baseMode & MAV_MODE_FLAG_SAFETY_ARMED != 0;
      telemetry := telemetry.(CustomMode := customMode, BaseMode := baseMode);
    }

    /** GLOBAL_POSITION_INT: 1e7-degrees, millimetres and cm/s to degrees, metres and m/s. */
    twostate predicate GlobalPositionEffect(lat: int, lon: int, alt: int, vx: int, vy: int, vz: int, now: int)
      reads this
    {
      telemetry == old(telemetry).(
        Latitude := lat as real / 10000000.0, Longitude := lon as real / 10000000.0,
        Altitude := alt as real / 1000.0,
        VelocityX := vx as real / 100.0, VelocityY := vy as real / 100.0,
        VelocityZ := vz as real / 100.0, LastUpdate := now)
    }

    method OnGlobalPosition(lat: int, lon: int, alt: int, vx: int, vy: int, vz: int, now: int)
      modifies this`telemetry
      ensures GlobalPositionEffect(lat, lon, alt, vx, vy, vz, now)
    {
      telemetry := telemetry.(
        Latitude := lat as real / 10000000.0, Longitude := lon as real / 10000000.0,
        Altitude := alt as real / 1000.0,
        VelocityX := vx as real / 100.0, VelocityY := vy as real / 100.0,
        VelocityZ := vz as real / 100.0, LastUpdate := now);
    }

    /** ATTITUDE: the three angles. */
    twostate predicate AttitudeEffect(roll: real, pitch: real, yaw: real, now: int)
      reads this
    {
      telemetry == old(telemetry).(Roll := roll, Pitch := pitch, Yaw := yaw, LastUpdate := now)
    }

    method OnAttitude(roll: real, pitch: real, yaw: real, now: int)
      modifies this`telemetry
      ensures AttitudeEffect(roll, pitch, yaw, now)
    {
      telemetry := telemetry.(Roll := roll, Pitch := pitch, Yaw := yaw, LastUpdate := now);
    }

    /** VFR_HUD: heading, ground speed and climb rate. */
    twostate predicate VfrHudEffect(heading: int, groundspeed: real, climb: real, now: int)
      reads this
    {
      telemetry == old(telemetry).(Heading := heading as real, GroundSpeed := groundspeed,
                                   VerticalSpeed := climb, LastUpdate := now)
    }

    method OnVfrHud(heading: int, groundspeed: real, climb: real, now: int)
      modifies this`telemetry
      ensures VfrHudEffect(heading, groundspeed, climb, now)
    {
      telemetry := telemetry.(Heading := heading as real, GroundSpeed := groundspeed,
                              VerticalSpeed := climb, LastUpdate := now);
    }

    /** SYS_STATUS: battery in volts, amps and percent, and the sensor-health rule. */
    twostate predicate SysStatusEffect(voltageBattery: int, currentBattery: int, batteryRemaining: int32,
                                       health: bv32, enabled: bv32, now: int)
      reads this
    {
      telemetry == old(telemetry).(
        BatteryVoltage := voltageBattery as real / 1000.0, BatteryRemaining := batteryRemaining,
        BatteryCurrent := currentBattery as real / 100.0,
        SensorsHealthy := SensorsHealthy(health, enabled), LastUpdate := now)
    }

    method OnSysStatus(voltageBattery: int, currentBattery: int, batteryRemaining: int32,
                       health: bv32, enabled: bv32, now: int)
      modifies this`telemetry
      ensures SysStatusEffect(voltageBattery, currentBattery, batteryRemaining, health, enabled, now)
      ensures telemetry.SensorsHealthy <==> enabled & !health == 0
    {
      telemetry := telemetry.(
        BatteryVoltage := voltageBattery as real / 1000.0, BatteryRemaining := batteryRemaining,
        BatteryCurrent := currentBattery as real / 100.0,
        SensorsHealthy := SensorsHealthy(health, enabled), LastUpdate := now);
    }

    /** GPS_RAW_INT: accuracy in metres and the visible satellites. */
    twostate predicate GpsRawEffect(eph: int, satellitesVisible: uint8, now: int)
      reads this
    {
      telemetry == old(telemetry).(GPSAccuracy := eph as real / 100.0,
                                   SatelliteCount := satellitesVisible, LastUpdate := now)
    }

    method OnGpsRaw(eph: int, satellitesVisible: uint8, now: int)
      modifies this`telemetry
      ensures GpsRawEffect(eph, satellitesVisible, now)
    {
      telemetry := telemetry.(GPSAccuracy := eph as real / 100.0,
                              SatelliteCount := satellitesVisible, LastUpdate := now);
    }

    /** MISSION_REQUEST is answered exactly as MISSION_REQUEST_INT for the same index. */
    method OnMissionRequest(seqNo: uint16, sendErr: Option<string>)
      requires Valid()
      modifies this`missionState, this`slot, this`deliveries, this`outbox
      ensures Valid()
      ensures RequestEffect(old(missionState), old(slot), old(deliveries), old(outbox), seqNo, sendErr)
    {
      OnMissionRequestInt(seqNo, sendErr);
    }

    /**
      The effect of a request for item `seqNo` on the mission state, the
      completion channel and the outbox, stated over the state before.
     */
    ghost predicate RequestEffect(ms: MissionState, s: Option<Outcome>, d: nat, out: seq<Msg>,
                                  seqNo: uint16, sendErr: Option<string>)
      reads this
    {
      if !ms.Uploading || seqNo >= |ms.Waypoints| then
        missionState == ms && slot == s && deliveries == d && outbox == out
      else
        && outbox == out + [MissionItemFor(systemID, ms.Waypoints[seqNo])]
        && (sendErr.None? ==> missionState == ms && slot == s && deliveries == d)
        && (sendErr.Some? ==>
              && missionState == ms.(Uploading := false, UploadComplete := false)
              && slot == Some(Failure(Transport(sendErr.value)))
              && deliveries == d + 1)
    }

    method OnMissionRequestInt(seqNo: uint16, sendErr: Option<string>)
      requires Valid()
      modifies this`missionState, this`slot, this`deliveries, this`outbox
      ensures Valid()
      ensures RequestEffect(old(missionState), old(slot), old(deliveries), old(outbox), seqNo, sendErr)
    {
      if !missionState.Uploading {
        return;
      }
      if seqNo >= |missionState.Waypoints| {
        return;
      }
      var wp := missionState.Waypoints[seqNo];
      var err := SendMissionItem(wp, sendErr);
      if err.Failure? {
        if missionState.UploadComplete {
          slot := Some(err);
          deliveries := deliveries + 1;
          missionState := missionState.(UploadComplete := false);
        }
        missionState := missionState.(Uploading := false);
      }
    }

    /** sendMissionItem: one MISSION_ITEM_INT built from the waypoint. */
    method SendMissionItem(wp: Waypoint, sendErr: Option<string>) returns (r: Outcome)
      modifies this`outbox
      ensures outbox == old(outbox) + [MissionItemFor(systemID, wp)]
      ensures r == SendOutcome(sendErr)
    {
      outbox := outbox + [MissionItemFor(systemID, wp)];
      r := SendOutcome(sendErr);
    }

    /**
      MISSION_ACK: acts only while uploading; ends the upload and delivers
      success iff the type is MAV_MISSION_ACCEPTED, else an error with the code.
     */
    twostate predicate AckEffect(ackType: uint8)
      reads this
    {
      && (!old(missionState.Uploading) ==>
            missionState == old(missionState) && slot == old(slot) && deliveries == old(deliveries))
      && (old(missionState.Uploading) ==>
            && missionState == old(missionState).(Uploading := false, UploadComplete := false)
            && deliveries == old(deliveries) + 1
            && slot == Some(if ackType == MAV_MISSION_ACCEPTED then Success
                            else Failure(MissionUploadFailed(ackType))))
    }

    method OnMissionAck(ackType: uint8)
      requires Valid()
      modifies this`missionState, this`slot, this`deliveries
      ensures Valid()
      ensures AckEffect(ackType)
    {
      if missionState.Uploading {
        missionState := missionState.(Uploading := false);
        if missionState.UploadComplete {
          var result := if ackType == MAV_MISSION_ACCEPTED then Success
                        else Failure(MissionUploadFailed(ackType));
          slot := Some(result);
          deliveries := deliveries + 1;
          missionState := missionState.(UploadComplete := false);
        }
      }
    }

    /** MISSION_CURRENT: the current item; a uint16 index is never negative, so active. */
    twostate predicate CurrentEffect(seqNo: uint16)
      reads this
    {
      missionState == old(missionState).(CurrentWaypoint := seqNo, MissionActive := seqNo >= 0)
    }

    method OnMissionCurrent(seqNo: uint16)
      requires Valid()
      modifies this`missionState
      ensures Valid()
      ensures CurrentEffect(seqNo)
      ensures missionState.MissionActive
    {
      missionState := missionState.(CurrentWaypoint := seqNo, MissionActive := seqNo >= 0);
    }

    twostate predicate LinkUnchanged()
      reads this
    {
      connected == old(connected) && systemID == old(systemID)
      && lastHeartbeat == old(lastHeartbeat) && armed == old(armed)
    }

    twostate predicate SessionUnchanged()
      reads this
    {
      missionState == old(missionState) && slot == old(slot)
      && deliveries == old(deliveries) && outbox == old(outbox)
    }

    /**
      What the listener's dispatch does with one inbound message: the kind's
      own handler effect, and nothing outside it. Only a heartbeat touches the
      link fields; only the mission kinds touch the session and the outbox;
      the log-only kinds change nothing.
     */
    twostate predicate DispatchEffect(msg: Inbound, sysID: uint8, now: int, sendErr: Option<string>)
      reads this
    {
      match msg
      case Heartbeat(b, c) => HeartbeatEffect(b, c, sysID, now) && SessionUnchanged()
      case GlobalPositionInt(lat, lon, alt, vx, vy, vz) =>
        GlobalPositionEffect(lat, lon, alt, vx, vy, vz, now) && LinkUnchanged() && SessionUnchanged()
      case Attitude(r, p, y) => AttitudeEffect(r, p, y, now) && LinkUnchanged() && SessionUnchanged()
      case VfrHud(h, g, c) => VfrHudEffect(h, g, c, now) && LinkUnchanged() && SessionUnchanged()
      case SysStatus(v, c, rem, h, e) =>
        SysStatusEffect(v, c, rem, h, e, now) && LinkUnchanged() && SessionUnchanged()
      case GpsRawInt(eph, sats) => GpsRawEffect(eph, sats, now) && LinkUnchanged() && SessionUnchanged()
      case MissionRequest(sq) =>
        && RequestEffect(old(missionState), old(slot), old(deliveries), old(outbox), sq, sendErr)
        && LinkUnchanged() && telemetry == old(telemetry)
      case MissionRequestInt(sq) =>
        && RequestEffect(old(missionState), old(slot), old(deliveries), old(outbox), sq, sendErr)
        && LinkUnchanged() && telemetry == old(telemetry)
      case MissionAck(t) =>
        AckEffect(t) && outbox == old(outbox) && LinkUnchanged() && telemetry == old(telemetry)
      case MissionCurrent(sq) =>
        && CurrentEffect(sq) && slot == old(slot) && deliveries == old(deliveries) && outbox == old(outbox)
        && LinkUnchanged() && telemetry == old(telemetry)
      case CommandAck(_, _) => LinkUnchanged() && SessionUnchanged() && telemetry == old(telemetry)
      case StatusText(_, _) => LinkUnchanged() && SessionUnchanged() && telemetry == old(telemetry)
      case MissionItemReached(_) => LinkUnchanged() && SessionUnchanged() && telemetry == old(telemetry)
      case Unhandled => LinkUnchanged() && SessionUnchanged() && telemetry == old(telemetry)
    }

    /** The listener's dispatch on message kind (handleMessage). */
    method HandleMessage(msg: Inbound, sysID: uint8, now: int, sendErr: Option<string>)
      requires Valid()
      modifies this`connected, this`systemID, this`lastHeartbeat, this`armed, this`telemetry,
               this`missionState, this`slot, this`deliveries, this`outbox
      ensures Valid()
      ensures DispatchEffect(msg, sysID, now, sendErr)
    {
      match msg
      case Heartbeat(b, c) => OnHeartbeat(b, c, sysID, now);
      case CommandAck(_, _) =>
      case StatusText(_, _) =>
      case GlobalPositionInt(lat, lon, alt, vx, vy, vz) => OnGlobalPosition(lat, lon, alt, vx, vy, vz, now);
      case Attitude(r, p, y) => OnAttitude(r, p, y, now);
      case VfrHud(h, g, c) => OnVfrHud(h, g, c, now);
      case SysStatus(v, c, rem, h, e) => OnSysStatus(v, c, rem, h, e, now);
      case GpsRawInt(eph, sats) => OnGpsRaw(eph, sats, now);
      case MissionRequest(s) => OnMissionRequest(s, sendErr);
      case MissionRequestInt(s) => OnMissionRequestInt(s, sendErr);
      case MissionAck(t) => OnMissionAck(t);
      case MissionCurrent(s) => OnMissionCurrent(s);
      case MissionItemReached(_) =>
      case Unhandled =>
    }

    // ------------------------------------------------------- mission upload

    /**
      The first half of UploadMission, up to the wait: rejects a second upload
      without touching the running session; otherwise opens a new session with a
      fresh one-slot channel and sends MISSION_COUNT (the count as a uint16).
     */
    method StartUpload(waypoints: seq<Waypoint>, sendErr: Option<string>) returns (r: UploadStep)
      requires Valid()
      modifies this`missionState, this`slot, this`deliveries, this`outbox
      ensures Valid()
      ensures old(missionState.Uploading) ==>
                && r == Done(Failure(UploadInProgress))
                && missionState == old(missionState) && slot == old(slot)
                && deliveries == old(deliveries) && outbox == old(outbox)
      ensures !old(missionState.Uploading) ==>
                && missionState == old(missionState).(
                     Uploading := sendErr.None?, Waypoints := waypoints,
                     TotalCount := |waypoints|, CurrentIndex := 0, UploadComplete := true)
                && slot.None? && deliveries == 0
                && outbox == old(outbox) + [MissionCount(systemID, |waypoints| % 0x1_0000)]
                && r == (if sendErr.None? then Waiting
                         else Done(Failure(CountSendFailed(sendErr.value))))
    {
      if missionState.Uploading {
        return Done(Failure(UploadInProgress));
      }
      missionState := missionState.(Uploading := true, Waypoints := waypoints,
                                    TotalCount := |waypoints|, CurrentIndex := 0,
                                    UploadComplete := true);
      slot := None;
      deliveries := 0;
      outbox := outbox + [MissionCount(systemID, |waypoints| % 0x1_0000)];
      if sendErr.Some? {
        missionState := missionState.(Uploading := false);
        return Done(Failure(CountSendFailed(sendErr.value)));
      }
      r := Waiting;
    }

    /** The waiting caller's receive: takes the delivered result, if any. */
    method AwaitUpload() returns (r: UploadStep)
      modifies this`slot
      ensures old(slot).None? ==> r == Waiting && slot.None?
      ensures old(slot).Some? ==> r == Done(old(slot).value) && slot.None?
    {
      if slot.Some? {
        r := Done(slot.value);
        slot := None;
      } else {
        r := Waiting;
      }
    }

    /**
      The 30 s timer fired first: the upload ends with a timeout and the
      session is marked not uploading; the channel field is left as it is.
     */
    method OnUploadTimeout() returns (r: Outcome)
      requires Valid()
      modifies this`missionState
      ensures Valid()
      ensures missionState == old(missionState).(Uploading := false)
      ensures r == Failure(MissionUploadTimeout)
    {
      missionState := missionState.(Uploading := false);
      r := Failure(MissionUploadTimeout);
    }

    // ------------------------------------------------------------- commands

    /** Every command: fail fast when the link is not live, else send one message. */
    method Issue(m: Msg, now: int, sendErr: Option<string>) returns (r: Outcome)
      modifies this`connected, this`outbox
      ensures connected == old(LiveAt(now))
      ensures !connected ==> r == Failure(NotConnected) && outbox == old(outbox)
      ensures connected ==>
                && r == SendOutcome(sendErr)
                && outbox == old(outbox) + [m]
    {
      var live := IsConnected(now);
      if !live {
        return Failure(NotConnected);
      }
      outbox := outbox + [m];
      r := SendOutcome(sendErr);
    }

    method GoToPosition(latitude: real, longitude: real, altitude: real, now: int,
                        sendErr: Option<string>) returns (r: Outcome)
      modifies this`connected, this`outbox
      ensures connected == old(LiveAt(now))
      ensures !connected ==> r == Failure(NotConnected) && outbox == old(outbox)
      ensures connected ==>
                && r == SendOutcome(sendErr)
                && outbox == old(outbox) + [SetPositionTargetGlobalInt(systemID, MAV_FRAME_GLOBAL_RELATIVE_ALT_INT,
                   PositionOnlyMask, Position(latitude, longitude, altitude))]
    {
      r := Issue(SetPositionTargetGlobalInt(systemID, MAV_FRAME_GLOBAL_RELATIVE_ALT_INT,
                   PositionOnlyMask, Position(latitude, longitude, altitude)), now, sendErr);
    }

    method ClearMission(now: int, sendErr: Option<string>) returns (r: Outcome)
      modifies this`connected, this`outbox
      ensures connected == old(LiveAt(now))
      ensures !connected ==> r == Failure(NotConnected) && outbox == old(outbox)
      ensures connected ==>
                && r == SendOutcome(sendErr)
                && outbox == old(outbox) + [MissionClearAll(systemID)]
    {
      r := Issue(MissionClearAll(systemID), now, sendErr);
    }

    /** MISSION_SET_CURRENT with the index as a uint16. */
    method StartMission(waypointIndex: int32, now: int, sendErr: Option<string>) returns (r: Outcome)
      modifies this`connected, this`outbox
      ensures connected == old(LiveAt(now))
      ensures !connected ==> r == Failure(NotConnected) && outbox == old(outbox)
      ensures connected ==>
                && r == SendOutcome(sendErr)
                && outbox == old(outbox) + [MissionSetCurrent(systemID, waypointIndex % 0x1_0000)]
    {
      r := Issue(MissionSetCurrent(systemID, waypointIndex % 0x1_0000), now, sendErr);
    }

    method Arm(now: int, sendErr: Option<string>) returns (r: Outcome)
      modifies this`connected, this`outbox
      ensures connected == old(LiveAt(now))
      ensures !connected ==> r == Failure(NotConnected) && outbox == old(outbox)
      ensures connected ==>
                && r == SendOutcome(sendErr)
                && outbox == old(outbox) + [CommandLong(systemID, MAV_CMD_COMPONENT_ARM_DISARM, 1.0, 0.0, 0.0)]
    {
      r := Issue(CommandLong(systemID, MAV_CMD_COMPONENT_ARM_DISARM, 1.0, 0.0, 0.0), now, sendErr);
    }

    method Disarm(now: int, sendErr: Option<string>) returns (r: Outcome)
      modifies this`connected, this`outbox
      ensures connected == old(LiveAt(now))
      ensures !connected ==> r == Failure(NotConnected) && outbox == old(outbox)
      ensures connected ==>
                && r == SendOutcome(sendErr)
                && outbox == old(outbox) + [CommandLong(systemID, MAV_CMD_COMPONENT_ARM_DISARM, 0.0, 0.0, 0.0)]
    {
      r := Issue(CommandLong(systemID, MAV_CMD_COMPONENT_ARM_DISARM, 0.0, 0.0, 0.0), now, sendErr);
    }

    /** MAV_CMD_DO_SET_MODE with the custom-mode flag and the PX4 word as parameters. */
    method SetMode(px4Mode: bv32, now: int, sendErr: Option<string>) returns (r: Outcome)
      modifies this`connected, this`outbox
      ensures connected == old(LiveAt(now))
      ensures !connected ==> r == Failure(NotConnected) && outbox == old(outbox)
      ensures connected ==>
                && r == SendOutcome(sendErr)
                && outbox == old(outbox) + [SetModeMsg(systemID, px4Mode)]
    {
      r := Issue(SetModeMsg(systemID, px4Mode), now, sendErr);
    }

    method Takeoff(altitude: real, now: int, sendErr: Option<string>) returns (r: Outcome)
      modifies this`connected, this`outbox
      ensures connected == old(LiveAt(now))
      ensures !connected ==> r == Failure(NotConnected) && outbox == old(outbox)
      ensures connected ==>
                && r == SendOutcome(sendErr)
                && outbox == old(outbox) + [CommandLong(systemID, MAV_CMD_NAV_TAKEOFF, 0.0, 0.0, altitude)]
    {
      r := Issue(CommandLong(systemID, MAV_CMD_NAV_TAKEOFF, 0.0, 0.0, altitude), now, sendErr);
    }

    method Land(now: int, sendErr: Option<string>) returns (r: Outcome)
      modifies this`connected, this`outbox
      ensures connected == old(LiveAt(now))
      ensures !connected ==> r == Failure(NotConnected) && outbox == old(outbox)
      ensures connected ==>
                && r == SendOutcome(sendErr)
                && outbox == old(outbox) + [CommandLong(systemID, MAV_CMD_NAV_LAND, 0.0, 0.0, 0.0)]
    {
      r := Issue(CommandLong(systemID, MAV_CMD_NAV_LAND, 0.0, 0.0, 0.0), now, sendErr);
    }

    method ReturnToLaunch(now: int, sendErr: Option<string>) returns (r: Outcome)
      modifies this`connected, this`outbox
      ensures connected == old(LiveAt(now))
      ensures !connected ==> r == Failure(NotConnected) && outbox == old(outbox)
      ensures connected ==>
                && r == SendOutcome(sendErr)
                && outbox == old(outbox) + [CommandLong(systemID, MAV_CMD_NAV_RETURN_TO_LAUNCH, 0.0, 0.0, 0.0)]
    {
      r := Issue(CommandLong(systemID, MAV_CMD_NAV_RETURN_TO_LAUNCH, 0.0, 0.0, 0.0), now, sendErr);
    }

    // ------------------------------------------------ connection lifecycle

    /**
      Polls the link every 100 ms from `start` until it is live (then asks the
      vehicle for its data streams) or a poll falls after the deadline. The
      listener's heartbeats are the `arrivals`: arrivals[k] is handled just
      before poll k.
     */
    method WaitForConnection(start: int, timeoutMs: int, arrivals: seq<Option<HeartbeatFrame>>)
      returns (r: Outcome)
      requires Valid()
      modifies this`connected, this`systemID, this`lastHeartbeat, this`armed, this`telemetry,
               this`outbox
      ensures Valid()
      ensures r == Success || r == Failure(ConnectionTimeout)
      ensures r.Success? <==> old(LiveAt(start))
                              || exists k :: 0 <= k < PollCount(timeoutMs) && ArrivesAt(arrivals, k)
      ensures r.Success? ==> connected
                             && outbox == old(outbox) + [RequestDataStream(systemID, MAV_DATA_STREAM_ALL, 10, 1)]
      ensures r.Failure? ==> !connected && outbox == old(outbox)
    {
      var deadline := start + timeoutMs;
      var k := 0;
      var now := start;
      while true
        invariant 0 <= k < PollCount(timeoutMs)
        invariant now == start + PollPeriodMs * k
        invariant Valid() && outbox == old(outbox)
        invariant forall j :: 0 <= j < k ==> !ArrivesAt(arrivals, j)
        invariant k == 0 ==> connected == old(connected) && lastHeartbeat == old(lastHeartbeat)
        invariant k > 0 ==> !old(LiveAt(start)) && !connected
        decreases deadline - now
      {
        var arrived := k < |arrivals| && arrivals[k].Some?;
        if arrived {
          var f := arrivals[k].value;
          OnHeartbeat(f.baseMode, f.customMode, f.sysID, now);
        }
        var live := IsConnected(now);
        if live {
          assert arrived ==> ArrivesAt(arrivals, k);
          outbox := outbox + [RequestDataStream(systemID, MAV_DATA_STREAM_ALL, 10, 1)];
          return Success;
        }
        if now > deadline {
          assert k == PollCount(timeoutMs) - 1;
          return Failure(ConnectionTimeout);
        }
        k := k + 1;
        now := now + PollPeriodMs;
      }
    }

    /** One tick of the ground-station announcer: a GCS HEARTBEAT, then SYSTEM_TIME. */
    method GroundStationTick(unixMicro: int, unixMilli: int)
      requires !closed
      modifies this`outbox
      ensures outbox == old(outbox) + [GcsHeartbeat,
                SystemTime(unixMicro % 0x1_0000_0000_0000_0000, unixMilli % 0x1_0000_0000)]
    {
      outbox := outbox + [GcsHeartbeat];
      outbox := outbox + [SystemTime(unixMicro % 0x1_0000_0000_0000_0000, unixMilli % 0x1_0000_0000)];
    }

    /**
      Stops the announcer and marks the link down. The stop channel is closed
      unconditionally, so a second Close would panic: the client must not be
      closed yet.
     */
    method Close() returns (r: Outcome)
      requires !closed
      modifies this`closed, this`connected
      ensures closed && !connected && r == Success
    {
      closed := true;
      connected := false;
      r := Success;
    }
  }

  /**
    NewClient: opening the serial transport may fail (`openErr`); otherwise a
    fresh client, not yet connected, idle and with nothing sent.
   */
  method NewClient(port: string, baudRate: int, now: int, openErr: Option<string>)
    returns (r: Result<Client, string>)
    ensures openErr.Some? <==> r.Err?
    ensures r.Err? ==> r.error == "failed to create MAVLink node: " + openErr.value
    ensures r.Ok? ==> && fresh(r.value) && r.value.Valid()
                      && !r.value.connected && !r.value.closed && !r.value.armed
                      && r.value.port == port && r.value.baudRate == baudRate
                      && r.value.outbox == [] && r.value.missionState == IdleMission
  {
    if openErr.Some? {
      return Err("failed to create MAVLink node: " + openErr.value);
    }
    var c := new Client(port, baudRate, now);
    r := Ok(c);
  }

  /**
    Between two states the client changed at most its link flag and its
    outbox: what a liveness check followed by one command may touch.
   */
  twostate predicate LinkAndOutboxOnly(c: Client)
    reads c
  {
    && c.armed == old(c.armed) && c.systemID == old(c.systemID)
    && c.lastHeartbeat == old(c.lastHeartbeat)
    && c.port == old(c.port) && c.baudRate == old(c.baudRate)
    && c.telemetry == old(c.telemetry) && c.missionState == old(c.missionState)
    && c.slot == old(c.slot) && c.closed == old(c.closed) && c.deliveries == old(c.deliveries)
  }

  /** DO_SET_MODE as SetMode sends it. */
  function SetModeMsg(systemID: uint8, px4Mode: bv32): Msg {
    CommandLong(systemID, MAV_CMD_DO_SET_MODE, MAV_MODE_FLAG_CUSTOM_MODE_ENABLED as real,
                px4Mode as int as real, 0.0)
  }
}
