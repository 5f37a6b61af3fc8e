/**
  The telemetry service (internal/services/telemetry.go): the snapshot and
  the per-tick stream frame built from the client's telemetry record, and
  the stream's tick interval.
 */
module TelemetryService {
  import opened Wrappers
  import opened Px4Mode
  import opened Mavlink
  import opened ServerDeps

  datatype Vec3 = Vec3(X: real, Y: real, Z: real)
  datatype AttitudeAngles = AttitudeAngles(Roll: real, Pitch: real, Yaw: real)
  datatype Battery = Battery(Voltage: real, Current: real, Remaining: int32)
  datatype SystemHealth = SystemHealth(SensorsOk: bool, GpsOk: bool)
  datatype Capabilities = Capabilities(HasGps: bool, HasCompass: bool, CanTakeoff: bool,
                                       CanLand: bool, CanReturnHome: bool)

  datatype Snapshot = Snapshot(
    TimestampMs: int, Position: Position, Velocity: Vec3, Attitude: AttitudeAngles,
    Battery: Battery, Health: SystemHealth, Armed: bool, Mode: FlightMode,
    HomePosition: Position, Capabilities: Capabilities)

  datatype StreamFrame = StreamFrame(
    TimestampMs: int, Position: Position, Velocity: Vec3, Attitude: AttitudeAngles,
    Battery: Battery, Health: SystemHealth, Armed: bool, Mode: FlightMode,
    Heading: real, GroundSpeed: real, VerticalSpeed: real,
    GpsAccuracy: real, SatelliteCount: int32)

  datatype RpcError = FailedPrecondition(message: string)

  /** Satellites needed before the GPS counts as healthy. */
  const MinGpsSatellites: int := 6

  function Health(t: TelemetryData): (h: SystemHealth)
    ensures h.SensorsOk == t.SensorsHealthy
    ensures h.GpsOk <==> t.SatelliteCount >= MinGpsSatellites
  {
    SystemHealth(t.SensorsHealthy, t.SatelliteCount >= MinGpsSatellites)
  }

  /** What the snapshot reports as fixed capabilities; only the GPS depends on telemetry. */
  function CapabilitiesOf(t: TelemetryData): (c: Capabilities)
    ensures c.HasGps <==> t.SatelliteCount > 0
    ensures c.HasCompass && c.CanTakeoff && c.CanLand && c.CanReturnHome
  {
    Capabilities(t.SatelliteCount > 0, true, true, true, true)
  }

  /** A healthy GPS implies the snapshot reports a GPS; a GPS with 1 to 5 satellites is present but not healthy. */
  lemma GpsOkImpliesHasGps(t: TelemetryData)
    ensures Health(t).GpsOk ==> CapabilitiesOf(t).HasGps
    ensures 0 < t.SatelliteCount < MinGpsSatellites ==> CapabilitiesOf(t).HasGps && !Health(t).GpsOk
  {
  }

  /** One tick of StreamTelemetry, from the telemetry record and the armed flag. */
  function StreamFrameOf(t: TelemetryData, armed: bool, nowMs: int): (f: StreamFrame)
    ensures f.Health == Health(t) && f.Mode == Decode(t.CustomMode) && Supported(f.Mode)
    ensures f.Armed == armed && f.TimestampMs == nowMs
    ensures f.SatelliteCount == t.SatelliteCount
  {
    StreamFrame(nowMs, Position(t.Latitude, t.Longitude, t.Altitude),
                Vec3(t.VelocityX, t.VelocityY, t.VelocityZ), AttitudeAngles(t.Roll, t.Pitch, t.Yaw),
                Battery(t.BatteryVoltage, t.BatteryCurrent, t.BatteryRemaining),
                Health(t), armed, Decode(t.CustomMode),
                t.Heading, t.GroundSpeed, t.VerticalSpeed, t.GPSAccuracy, t.SatelliteCount)
  }

  function SnapshotOf(t: TelemetryData, armed: bool, nowMs: int): (s: Snapshot)
    ensures s.HomePosition == Position(0.0, 0.0, 0.0)
    ensures s.Health == Health(t) && s.Capabilities == CapabilitiesOf(t)
    ensures s.Mode == Decode(t.CustomMode) && Supported(s.Mode)
    ensures s.Armed == armed && s.TimestampMs == nowMs
  {
    Snapshot(nowMs, Position(t.Latitude, t.Longitude, t.Altitude),
             Vec3(t.VelocityX, t.VelocityY, t.VelocityZ), AttitudeAngles(t.Roll, t.Pitch, t.Yaw),
             Battery(t.BatteryVoltage, t.BatteryCurrent, t.BatteryRemaining),
             Health(t), armed, Decode(t.CustomMode),
             Position(0.0, 0.0, 0.0), CapabilitiesOf(t))
  }

  /** The snapshot and a stream frame taken at the same instant agree on every field they share. */
  lemma SnapshotAgreesWithStream(t: TelemetryData, armed: bool, nowMs: int)
    ensures var s := SnapshotOf(t, armed, nowMs);
      var f := StreamFrameOf(t, armed, nowMs);
      && s.TimestampMs == f.TimestampMs && s.Position == f.Position && s.Velocity == f.Velocity
      && s.Attitude == f.Attitude && s.Battery == f.Battery && s.Health == f.Health
      && s.Armed == f.Armed && s.Mode == f.Mode
  {
  }

  /** GetSnapshot: a precondition error without a client, else the client's current readings. */
  function GetSnapshot(deps: Dependencies, nowMs: int): (r: Result<Snapshot, RpcError>)
    reads deps, deps.mavlinkClient
    ensures deps.mavlinkClient == null <==> r.Err?
    ensures r.Err? ==> r.error == FailedPrecondition("not connected to drone")
    ensures r.Ok? ==> r.value == SnapshotOf(deps.mavlinkClient.telemetry, deps.mavlinkClient.armed, nowMs)
  {
    if !deps.HasMAVLinkClient() then Err(FailedPrecondition("not connected to drone"))
    else
      var client := deps.GetMAVLinkClient();
      Ok(SnapshotOf(client.GetTelemetry(), client.IsArmed(), nowMs))
  }

  const SecondNs: int := 1_000_000_000

  /**
    The stream's tick in nanoseconds, as written: one second divided by the
    rate when the rate is positive, else one second.
   */
  function StreamIntervalAsWritten(rateHz: int32): (ns: int)
    ensures rateHz <= 0 ==> ns == SecondNs
    ensures rateHz > 0 ==> ns * rateHz <= SecondNs < (ns + 1) * rateHz
  {
    if rateHz > 0 then SecondNs / rateHz else SecondNs
  }

  /** A rate above 10^9 Hz makes the written interval zero, which the ticker refuses (it panics). */
  lemma StreamIntervalZeroForHugeRate()
    ensures StreamIntervalAsWritten(2_000_000_000) == 0
  {
  }

  /**
    The interval the stream evidently intends: the same quotient, but never
    below one nanosecond, so the ticker always gets a positive period.
   */
  function StreamInterval(rateHz: int32): (ns: int)
    ensures ns >= 1
    ensures StreamIntervalAsWritten(rateHz) >= 1 ==> ns == StreamIntervalAsWritten(rateHz)
    ensures rateHz > 0 ==> ns * rateHz <= SecondNs || ns == 1
  {
    var q := StreamIntervalAsWritten(rateHz);
    if q >= 1 then q else 1
  }

  /** The two agree for every rate of at most 10^9 Hz, so the correction changes only the rates that panicked. */
  lemma StreamIntervalAgreesBelowGigahertz(rateHz: int32)
    requires rateHz <= 1_000_000_000
    ensures StreamInterval(rateHz) == StreamIntervalAsWritten(rateHz)
  {
  }
}
