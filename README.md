# flightpath-server, modelled in Dafny

flightpath-server is a Go service that puts a drone API in front of a PX4
autopilot. It talks to the autopilot over MAVLink. This project models the
core of that server and proves properties about it:

- **The MAVLink client** (`client.dfy`, module `Mavlink`). A class with the
  link flags, the telemetry record and the mission-upload session. Each
  inbound message kind is a method. The mission upload is split into the
  events it waits on. The commands check liveness and then send one message.
  Every message handed to the transport is appended to a ghost `outbox`, and
  the transport's answer is a parameter.
- **The mode codec** (`px4mode.dfy`, module `Px4Mode`). It packs a generic
  flight mode into PX4's custom-mode word as `main | (sub << 16)`, and reads
  such a word back.
- **The services**:
  - connection (`connection_service.dfy`);
  - control (`control_service.dfy`);
  - mission (`mission_service.dfy`);
  - telemetry (`telemetry_service.dfy`).

  Each is the sequence of checks a request handler makes before it calls the
  client, and the response it builds.
- **The shared dependencies** (`dependencies.dfy`, module `ServerDeps`). The
  stored client, the registry path default and the fallback to an empty
  registry.
- **The drone registry** (`drones.dfy`): lookup by ID and the typed
  connection-parameter getters.
- **The application configuration** (`config.dfy`): the defaults, validation
  and the listen address.
- **Helpers**: `decimal.dfy` is Go's `%d` rendering of integers with its
  inverse. `wrappers.dfy` holds `Option` and `Result`.

Abstractions:

- **Time** is an integer number of milliseconds passed in as `now`. A
  liveness check drops the link when more than 3000 ms have passed since the
  last heartbeat. A handler checks liveness, and then each client command it
  calls checks again. Each check has its own instant (`now`, `clientNow`,
  `modeNow`, `startNow`), so the link can go stale between them.
- **Timeouts** are explicit events. The 30 s upload wait is
  `OnUploadTimeout` and `FinishUpload(timerFired)`. The heartbeat wait polls
  every 100 ms over a given sequence of heartbeat arrivals.
- **Sends**: every transport send is recorded in the ghost `outbox`. Whether
  it succeeded is the parameter `sendErr`, where `None` means it was
  accepted.
- **Panics**: in the connection service, a Go panic that ends a request is
  the `Panicked` alternative of `ConnectionService.Reply`. Panics on absent
  request sub-messages are not modelled (see "## Left out").
- **Unstated mode constants**: the encoder's `PX4_CUSTOM_MAIN_MODE_*` and
  `PX4_CUSTOM_SUB_MODE_AUTO_*` constants are defined nowhere in the
  repository. The model defines them equal to client.go's `PX4_MAIN_MODE_*`
  and `PX4_AUTO_MODE_*` values (`Px4Mode.CustomMain*`).

Quirks reproduced as written:

- `TotalWaypoints` is never assigned, so it stays 0. Mission progress is
  therefore never reported as in progress.
- A MISSION_CURRENT makes the mission active whatever its index, because a
  `uint16` is never negative.
- A mission item carries its waypoint's own `Sequence`, modulo 2^16, rather
  than the requested index.
- The decoder reads only bits 0-7 and 16-23.
- A quoted number in the registry reads as 0.

## Model

| member | source | states |
|---|---|---|
| Decimal.NatToString | internal/config/config.go:70-72 | the decimal digits of a natural: non-empty, all digits, no leading zero |
| Decimal.IntToString | internal/config/config.go:70-72 | Go's `%d`: starts with '-' exactly for negative numbers, digits otherwise |
| Decimal.IntToStringRoundTrip | internal/config/config.go:70-72 | the rendered text parses back to the same integer |
| Decimal.IntToStringInjective | internal/config/config.go:70-72 | distinct integers render as distinct strings |
| AppConfig.Default | internal/config/config.go:33-53 | the defaults pass validation: port 8080, level "info", a non-empty registry path, and a non-empty default serial port with a positive baud rate |
| AppConfig.Validate | internal/config/config.go:56-67 | no error iff the port is in 1..65535 and the level is one of debug/info/warn/error; a bad port is reported as the port error, a bad level with a good port as the level error |
| AppConfig.PortReportedFirst | internal/config/config.go:57-64 | a config with both a bad port and a bad level reports the port, as "invalid port: <port>" |
| AppConfig.ServerAddr | internal/config/config.go:70-72 | the address starts with the host followed by ':' |
| AppConfig.ServerAddrSplits | internal/config/config.go:70-72 | after the host and ':' comes the decimal port, with no further ':', and it parses back to the port |
| Drones.FindDrone | internal/config/drones.go:40-47 | success iff some entry has the ID; the entry returned is the first with that ID; otherwise the error "drone not found: <id>" |
| Drones.FirstMatchUnique | internal/config/drones.go:41-45 | the first entry with a given ID is unique |
| Drones.GetConnectionString | internal/config/drones.go:50-57 | the stored string when the key holds a string, "" when the key is missing or holds anything else |
| Drones.GetConnectionInt | internal/config/drones.go:60-67 | the stored int when the key holds an int, 0 when the key is missing or holds anything else |
| Drones.QuotedNumberReadsAsZero | internal/config/drones.go:60-67 | a number written as a string reads as 0 through the int getter and as its text through the string getter |
| Px4Mode.Encode | internal/services/control.go:156-207 | succeeds exactly for the ten supported modes; any other mode gives the unsupported-mode error naming it |
| Px4Mode.EncodeMatchesLayout | internal/services/control.go:156-213 | each supported mode packs its (main, sub) pair as `main \| (sub << 16)`: the five plain modes have no sub-mode bits, the five AUTO modes have MISSION, RTL, LAND, TAKEOFF and LOITER |
| Px4Mode.Decode | internal/services/telemetry.go:199-243 | always yields a supported mode |
| Px4Mode.DecodeEncode | internal/services/telemetry.go:199-243 | round trip: every mode the encoder accepts decodes back to itself |
| Px4Mode.EncodeInjective | internal/services/control.go:156-207 | distinct supported modes encode to distinct words |
| Px4Mode.DecodeReadsTwoBytes | internal/services/telemetry.go:201-204 | words that agree in bits 0-7 and 16-23 decode alike; the comment's "lower 16 bits" is not what is read |
| Px4Mode.UnknownMainDecodesManual | internal/services/telemetry.go:240-241 | a main mode the decoder does not know (ACRO, RATTITUDE, 0, ...) decodes to MANUAL |
| Px4Mode.UnknownAutoSubDecodesAuto | internal/services/telemetry.go:223-238 | under AUTO, a sub-mode with no generic counterpart decodes to AUTO |
| Px4Mode.EncodedWordsFitFloat32 | internal/mavlink/client.go:820-841 | every encoded word is below 2^24, so SetMode's float32 parameter carries it exactly |
| Px4Mode.ModeNameInjective | internal/services/control.go:204-205 | distinct modes print distinct names, so the unsupported-mode error identifies the mode |
| Mavlink.MapWaypointAction | internal/mavlink/client.go:651-666 | every action maps to one of the five navigation commands |
| Mavlink.MapWaypointActionRoundTrip | internal/mavlink/client.go:651-666 | the five named actions map to distinct commands, each recovered from its command; any other action flies as NAV_WAYPOINT |
| Mavlink.MissionItemFor | internal/mavlink/client.go:621-648 | the MISSION_ITEM_INT for a waypoint: its own Sequence modulo 2^16 as seq, its mapped command, hold time, acceptance radius and heading as params 1, 2 and 4, and its position |
| Mavlink.ReplySeqEchoesRequestIff | internal/mavlink/client.go:448 | the reply's seq equals the requested index iff the waypoint's Sequence agrees with it modulo 2^16; a list numbered 0, 1, 2, ... always echoes |
| Mavlink.PositionOnlyMaskHonoursPosition | internal/mavlink/client.go:540-550 | GoToPosition's type mask leaves x, y and z and the force bit clear and sets every other ignore bit |
| Mavlink.SensorsHealthy | internal/mavlink/client.go:404-405 | healthy iff no enabled sensor reports unhealthy |
| Mavlink.DisabledSensorsIgnored | internal/mavlink/client.go:404-405 | health bits of disabled sensors never change the verdict |
| Mavlink.MoreHealthStaysHealthy | internal/mavlink/client.go:404-405 | reporting more sensors healthy never turns a healthy status unhealthy |
| Mavlink.PollCount | internal/mavlink/client.go:750-776 | the number of 100 ms polls before the wait gives up: the last poll is the first one after the deadline |
| Mavlink.Client.constructor | internal/mavlink/client.go:158-199 | a new client: consistent, not connected, not armed, not closed, system 0, empty telemetry, idle mission, nothing sent |
| Mavlink.NewClient | internal/mavlink/client.go:158-199 | an error "failed to create MAVLink node: ..." iff the transport fails to open; otherwise a fresh idle client on the given port and baud rate with nothing sent |
| Mavlink.Client.GetMissionProgress | internal/mavlink/client.go:707-712 | the current waypoint and the active flag; the total is always 0 |
| Mavlink.Client.IsConnected | internal/mavlink/client.go:722-733 | the link stays up iff it was up and at most 3000 ms have passed since the last heartbeat; never sets it |
| Mavlink.Client.OnHeartbeat | internal/mavlink/client.go:322-345 | connected, the sender as system ID, the heartbeat time, armed iff the safety-armed flag is set, the custom and base modes stored, no other telemetry field changed |
| Mavlink.Client.OnGlobalPosition | internal/mavlink/client.go:348-365 | only position, velocity and the update time change |
| Mavlink.Client.OnAttitude | internal/mavlink/client.go:368-377 | only roll, pitch, yaw and the update time change |
| Mavlink.Client.OnVfrHud | internal/mavlink/client.go:380-389 | only heading, ground speed, vertical speed and the update time change |
| Mavlink.Client.OnSysStatus | internal/mavlink/client.go:392-408 | battery fields and the sensor-health rule; nothing else changes |
| Mavlink.Client.OnGpsRaw | internal/mavlink/client.go:411-420 | only GPS accuracy, satellite count and the update time change |
| Mavlink.Client.OnMissionRequest | internal/mavlink/client.go:423-427 | answered exactly as MISSION_REQUEST_INT for the same index |
| Mavlink.Client.OnMissionRequestInt | internal/mavlink/client.go:430-457 | not uploading, or an index past the list: nothing sent or changed; otherwise the item for that waypoint is sent, and a failed send delivers the error once, clears the channel and ends the upload |
| Mavlink.Client.SendMissionItem | internal/mavlink/client.go:621-648 | sends exactly the waypoint's MISSION_ITEM_INT and reports the transport's result |
| Mavlink.Client.OnMissionAck | internal/mavlink/client.go:460-479 | ignored unless uploading; otherwise ends the upload, delivers success iff ACCEPTED and otherwise an error with the code, and clears the channel, so there is one delivery per session |
| Mavlink.Client.OnMissionCurrent | internal/mavlink/client.go:482-490 | stores the current item and marks the mission active |
| Mavlink.Client.HandleMessage | internal/mavlink/client.go:278-319 | dispatch: each kind has exactly its own handler's effect (the heartbeat's link fields and stored modes; the position, attitude, HUD, status and GPS fields of the telemetry kinds; the request, ack and current-item effects on the session) and changes nothing else; the log-only kinds change nothing |
| Mavlink.Client.StartUpload | internal/mavlink/client.go:574-606 | while uploading: the "already in progress" error with the session untouched; otherwise a new session (the waypoints, count = length, index 0, a fresh channel) and MISSION_COUNT sent, with the session ended again if that send fails |
| Mavlink.Client.AwaitUpload | internal/mavlink/client.go:608-610 | takes the delivered result if there is one, else keeps waiting |
| Mavlink.Client.OnUploadTimeout | internal/mavlink/client.go:611-615 | the timeout error, and the session marked not uploading |
| Mavlink.Client.GoToPosition | internal/mavlink/client.go:523-571 | not live: "not connected to drone" and nothing sent; otherwise one position target with the position-only mask |
| Mavlink.Client.ClearMission | internal/mavlink/client.go:669-684 | not live: nothing sent; otherwise one MISSION_CLEAR_ALL |
| Mavlink.Client.StartMission | internal/mavlink/client.go:687-704 | not live: nothing sent; otherwise one MISSION_SET_CURRENT with the index as a uint16 |
| Mavlink.Client.Arm | internal/mavlink/client.go:779-796 | not live: nothing sent; otherwise one ARM_DISARM with param1 1 |
| Mavlink.Client.Disarm | internal/mavlink/client.go:799-816 | not live: nothing sent; otherwise one ARM_DISARM with param1 0 |
| Mavlink.Client.SetMode | internal/mavlink/client.go:820-841 | not live: nothing sent; otherwise one DO_SET_MODE with the custom-mode flag and the mode word |
| Mavlink.Client.Takeoff | internal/mavlink/client.go:844-861 | not live: nothing sent; otherwise one NAV_TAKEOFF with the altitude as param7 |
| Mavlink.Client.Land | internal/mavlink/client.go:864-880 | not live: nothing sent; otherwise one NAV_LAND |
| Mavlink.Client.ReturnToLaunch | internal/mavlink/client.go:883-899 | not live: nothing sent; otherwise one NAV_RETURN_TO_LAUNCH |
| Mavlink.Client.WaitForConnection | internal/mavlink/client.go:750-776 | success iff the link was already live or a heartbeat arrives before one of the polls; on success the data streams are requested, on failure the timeout error with the link down and nothing sent |
| Mavlink.Client.GroundStationTick | internal/mavlink/client.go:203-243 | one tick sends a GCS heartbeat and then SYSTEM_TIME |
| Mavlink.Client.Close | internal/mavlink/client.go:902-922 | only an unclosed client may be closed; afterwards it is closed and the link is down |
| ServerDeps.RegistryPath | internal/server/dependencies.go:27-30 | the configured registry path, or "./data/config/drones.yaml" when it is empty |
| ServerDeps.RegistryOrEmpty | internal/server/dependencies.go:32-36 | the loaded registry, or an empty one when loading fails |
| ServerDeps.Dependencies.constructor | internal/server/dependencies.go:23-46 | the given config, the registry read from its path (or empty), the server logger, and no client |
| ServerDeps.Dependencies.SetLogger | internal/server/dependencies.go:49-53 | only the logger changes |
| ServerDeps.Dependencies.SetMAVLinkClient | internal/server/dependencies.go:63-74 | only the client field changes; afterwards a client is present and the getter returns it |
| ServerDeps.Dependencies.HasMAVLinkClient | internal/server/dependencies.go:77-81 | true iff the stored client is non-nil |
| ServerDeps.Dependencies.ClearMAVLinkClient | internal/server/dependencies.go:84-88 | only the client field changes; afterwards no client is present |
| TelemetryService.Health | internal/services/telemetry.go:168-172 | sensors-ok is the stored health flag, and GPS-ok iff at least 6 satellites |
| TelemetryService.CapabilitiesOf | internal/services/telemetry.go:186-192 | has-GPS iff more than 0 satellites; compass, takeoff, land and return home always reported |
| TelemetryService.GpsOkImpliesHasGps | internal/services/telemetry.go:171-187 | a healthy GPS implies a GPS is reported; 1 to 5 satellites count as present but not healthy |
| TelemetryService.StreamFrameOf | internal/services/telemetry.go:60-110 | a stream frame: the same health rule, the decoded mode, the armed flag and the tick time |
| TelemetryService.SnapshotOf | internal/services/telemetry.go:139-193 | a snapshot: home always (0,0,0), the health and capability rules, the decoded mode, the armed flag |
| TelemetryService.SnapshotAgreesWithStream | internal/services/telemetry.go:60-193 | a snapshot and a stream frame taken at the same instant agree on every field they share |
| TelemetryService.GetSnapshot | internal/services/telemetry.go:121-196 | a FailedPrecondition "not connected to drone" iff there is no client; otherwise the client's current readings |
| TelemetryService.StreamIntervalAsWritten | internal/services/telemetry.go:45-48 | one second divided by the rate, truncated, when the rate is positive; otherwise one second |
| TelemetryService.StreamIntervalZeroForHugeRate | internal/services/telemetry.go:45-48 | a rate of 2e9 Hz gives an interval of 0 |
| TelemetryService.StreamInterval | internal/services/telemetry.go:45-48 | the corrected interval: always at least 1 ns, and equal to the written one wherever that is positive |
| TelemetryService.StreamIntervalAgreesBelowGigahertz | internal/services/telemetry.go:45-48 | for every rate up to 1e9 Hz the corrected interval is the written one |
| ControlService.SendReply | internal/services/control.go:53-62 | success iff the client call returned nil, with the success text; otherwise the error's text |
| ControlService.HandleCommand | internal/services/control.go:26-63 | no client: "not connected" without sending; not live at the handler's check: "Drone is not connected" without sending; stale by the client's own check: "not connected to drone" without sending; otherwise exactly the command's message, with success iff the send succeeds |
| ControlService.Arm | internal/services/control.go:26-63 | the handler sequence for ARM, with "Call Connect first" when there is no client |
| ControlService.Disarm | internal/services/control.go:65-102 | the handler sequence for DISARM |
| ControlService.Takeoff | internal/services/control.go:215-252 | the handler sequence for TAKEOFF at the requested altitude |
| ControlService.Land | internal/services/control.go:254-291 | the handler sequence for LAND |
| ControlService.ReturnHome | internal/services/control.go:293-330 | the handler sequence for RETURN_TO_LAUNCH |
| ControlService.SetFlightMode | internal/services/control.go:104-153 | checks in order (no client, not live, unsupported mode, stale at the client's check, send failure) with nothing sent before the last; on success the requested mode is echoed and its word sent |
| ControlService.GoToPosition | internal/services/control.go:332-356 | never succeeds and never calls the client |
| MissionService.Int32Of | internal/services/mission.go:76 | Go's `int32(n)`: identity inside the 32-bit range, congruent modulo 2^32 outside it |
| MissionService.MissionModesMatchCodec | internal/services/mission.go:131-132 | the start/resume word is the codec's AUTO word and the pause word its LOITER word, and they read back as AUTO and LOITER |
| MissionService.UploadResult | internal/services/mission.go:63-77 | success iff the client's upload returned nil, reporting the waypoint count; otherwise "Mission upload failed: ..." with 0 uploaded |
| MissionService.UploadMission | internal/services/mission.go:28-78 | no client, not live, empty list answered in that order with the session and outbox untouched; otherwise the client's upload starts: rejected while another runs, else the session is opened and MISSION_COUNT sent |
| MissionService.FinishUpload | internal/services/mission.go:63-77 | after the timer: the timeout answer with the session ended; otherwise the delivered result if any, with nothing else changed |
| MissionService.DownloadMission | internal/services/mission.go:81-103 | never succeeds |
| MissionService.StartMission | internal/services/mission.go:106-154 | no client, then not live; then the AUTO/MISSION mode unless the link went stale by the client's check, and only if that send succeeds MISSION_SET_CURRENT 0, again unless stale by its own check |
| MissionService.HandleOp | internal/services/mission.go:157-282 | the shared pause/resume/clear sequence: no client, not live, stale at the client's own check with "not connected to drone", then exactly one message |
| MissionService.PauseMission | internal/services/mission.go:157-197 | sends the AUTO/LOITER mode after the two checks |
| MissionService.ResumeMission | internal/services/mission.go:200-240 | sends the AUTO/MISSION mode after the two checks |
| MissionService.ClearMission | internal/services/mission.go:243-282 | sends MISSION_CLEAR_ALL after the two checks |
| MissionService.Classify | internal/services/mission.go:304-313 | IN_PROGRESS iff active and 0 <= current < total; COMPLETED iff active and current >= total; IDLE otherwise |
| MissionService.ZeroTotalNeverInProgress | internal/services/mission.go:304-313 | with total 0, never IN_PROGRESS, and an active mission at a non-negative item reads COMPLETED |
| MissionService.GetProgress | internal/services/mission.go:285-320 | IDLE with zeros without a client; otherwise the client's current item, total 0, never IN_PROGRESS, COMPLETED iff active at a non-negative item |
| MissionService.ProgressInterval | internal/services/mission.go:340-343 | IntervalMs milliseconds when positive, otherwise one second; always positive |
| ConnectionService.ConnectTimeoutMs | internal/services/connection.go:113-117 | the requested timeout when positive, otherwise 5000 ms |
| ConnectionService.MavlinkParams | internal/services/connection.go:99-109 | the entry's port and baud rate, with an empty port or a zero baud replaced by the configured defaults |
| ConnectionService.DefaultsFillLinkParams | internal/services/connection.go:99-109 | under the built-in defaults every drone gets a non-empty port and a non-zero baud rate |
| ConnectionService.RouteProtocol | internal/services/connection.go:73-87 | "mavlink" goes to the MAVLink path, "dji" to not-implemented, anything else to unknown protocol |
| ConnectionService.DroneIDs | internal/services/connection.go:159-166 | one ID per registry entry, in registry order |
| ConnectionService.DroneIDsListRegistered | internal/services/connection.go:159-166 | an ID is listed iff the registry has a drone with it |
| ConnectionService.GoList | internal/services/connection.go:64-65 | Go's `%v` of a string slice, between brackets |
| ConnectionService.GoListSplitsBack | internal/services/connection.go:64-65 | the listed IDs can be read back: between the brackets, splitting on spaces gives exactly the items in order, when no item contains a space |
| ConnectionService.GetAvailableDroneIDs | internal/services/connection.go:159-166 | the slice filled index by index is the registry's IDs in order |
| ConnectionService.ListDrones | internal/services/connection.go:226-248 | one summary per entry, in registry order |
| ConnectionService.ListedDronesAreFindable | internal/services/connection.go:226-248 | every listed drone's ID is registered and appears among the available IDs |
| ConnectionService.ConnectMavlink | internal/services/connection.go:91-156 | a transport error or a heartbeat timeout fails and stores nothing new; otherwise the live client on the entry's port and baud is stored and the reply names the drone and its system ID |
| ConnectionService.ConnectRegistered | internal/services/connection.go:57-87 | an unknown ID fails listing the available IDs; a known one is routed by the protocol of its first entry |
| ConnectionService.SuccessNeedsMavlinkAndHeartbeat | internal/services/connection.go:57-156 | a successful connect needs a MAVLink entry, an open transport and a heartbeat in time, and leaves a live client stored |
| ConnectionService.ConnectAsWritten | internal/services/connection.go:28-88 | an empty ID, then a live client, refused with nothing changed; a stale client is closed but stays stored; it panics iff that stale client was already closed |
| ConnectionService.Connect | internal/services/connection.go:28-88 | the corrected Connect: the same decisions, but the stale client is dropped after closing; the stored client is never a closed one, so it always answers |
| ConnectionService.GetStatus | internal/services/connection.go:168-188 | no client: not connected and not armed; otherwise the link after the liveness check and the armed flag |
| ConnectionService.Disconnect | internal/services/connection.go:190-224 | no client: "Not connected to any drone"; otherwise the client is closed and dropped, or the request panics if it was already closed |
| ConnectionService.StaleClientLockoutAsWritten | internal/services/connection.go:44-55 | a stale client, a failed Connect, then another Connect and a Disconnect: both later requests panic |
| ConnectionService.StaleClientLockoutCorrected | internal/services/connection.go:44-55 | the same sequence with the corrected Connect: every request is answered |

## Left out

- Transport: opening the serial node, writing frames, the MAVLink wire
  codec and CRC, and the listener loop. Sends are recorded in a ghost outbox
  and their success is a parameter. The node's close is not modelled.
- Concurrency: the client's mutex, the ground-station ticker goroutine, and
  the channel handshake in Close with its 2 s wait. Handlers run as
  sequential events. The race in which the liveness check writes `connected`
  under a read lock is not modelled.
- UploadMission's `select` between the completion channel and the 30 s
  timer is two events, `AwaitUpload` and `OnUploadTimeout`. Which one fires
  first is the caller's choice (`FinishUpload`'s `timerFired`).
- Floating point: unit conversions are kept as real division. The
  degrees-to-1e7 and metres-to-millimetre int32 scaling in GoToPosition and
  the mission item is not modelled; positions are carried as reals. The
  float32 rounding of command parameters is not modelled.
- Wall clock: `time.Now()` stamps become the `now` parameter. SYSTEM_TIME's
  values are parameters of `GroundStationTick`.
- Logging, including the log-only message kinds (COMMAND_ACK, STATUSTEXT,
  MISSION_ITEM_REACHED). Their handlers change nothing and are cases of
  `HandleMessage`.
- `GetConnectionInfo` builds a map for display only and has no caller in
  the core.
- The Downloading fields of the mission state are never used and are not
  modelled.
- StreamTelemetry and StreamProgress send loops and context cancellation.
  Only the frame they send and their tick interval are modelled.
- Loading the registry file and its YAML (`LoadDroneRegistry`) is the
  `load` parameter of the Dependencies constructor. The environment overrides
  in internal/config/loader.go are not part of this model.
- HTTP plumbing (server.go, main.go, middleware) is not part of this model.
- Absent request sub-messages: a request without its Mission
  (mission.go:33-34) or Target (control.go:337-338), or a waypoint without a
  Position (client.go:628, in the listener), makes Go panic on a nil
  pointer. The model's inputs are plain values that are always present, so
  these panics are not modelled.
- Mavlink.Client.Close: requires an unclosed client instead of modelling
  the panic of a second close. The service layer models that panic
  explicitly as `Panicked`.

## Findings

| source | as written | input that shows it | evidently intended | confidence | as-written member | corrected member |
|---|---|---|---|---|---|---|
| internal/services/connection.go:44-55 | a stored client that is no longer live is closed but left stored, so the next Connect or Disconnect closes its stop channel again and panics | a client heard at 0 ms; Connect("x500") for an unregistered drone at 5000 ms closes it and fails; Connect at 6000 ms or Disconnect then panics | clear the stored client after closing it, so every later request is answered | high, not executed | ConnectionService.StaleClientLockoutAsWritten | ConnectionService.StaleClientLockoutCorrected |
| internal/services/telemetry.go:45-48 | the interval is `time.Second / RateHz`, which is 0 for any rate above 1e9 Hz; `time.NewTicker` panics on a non-positive interval | RateHz = 2000000000 | an interval of at least 1 ns (or a rejected rate) | medium, not executed | TelemetryService.StreamIntervalZeroForHugeRate | TelemetryService.StreamInterval |
