/**
  The mission service (internal/services/mission.go): upload with its checks,
  start/pause/resume as PX4 mode changes, clear, and the progress report.
 */
module MissionService {
  import opened Wrappers
  import opened Px4Mode
  import opened Mavlink
  import opened ServerDeps

  datatype MissionResponse = MissionResponse(Success: bool, Message: string)

  datatype UploadMissionResponse = UploadMissionResponse(Success: bool, Message: string, WaypointsUploaded: int32)

  /** An upload handler either has answered, or is waiting for the vehicle. */
  datatype UploadReply = Replied(resp: UploadMissionResponse) | AwaitingVehicle

  datatype ProgressStatus = Idle | InProgress | Completed

  datatype ProgressResponse = ProgressResponse(Status: ProgressStatus, CurrentWaypoint: int32, TotalWaypoints: int32)

  const NoClientText: string := "Not connected to drone"
  const NotLiveText: string := "Drone is not connected"

  /** The two mode words the mission handlers send, built from client.go's PX4_* constants. */
  const AutoMissionMode: bv32 := MainAuto | (AutoMission << 16)
  const AutoLoiterMode: bv32 := MainAuto | (AutoLoiter << 16)

  /** Go's int32(n): the two's-complement wrap of an integer into 32 bits. */
  function Int32Of(n: int): (r: int32)
    ensures -0x8000_0000 <= n < 0x8000_0000 ==> r == n
    ensures (r - n) % 0x1_0000_0000 == 0
  {
    (n + 0x8000_0000) % 0x1_0000_0000 - 0x8000_0000
  }

  /**
    Start and Resume ask for the same AUTO/MISSION word the mode handler
    sends for AUTO, and Pause the AUTO/LOITER word it sends for LOITER; read
    back, these words are AUTO and LOITER.
   */
  lemma MissionModesMatchCodec()
    ensures AutoMissionMode == Encode(Auto).value && Decode(AutoMissionMode) == Auto
    ensures AutoLoiterMode == Encode(Loiter).value && Decode(AutoLoiterMode) == Loiter
    ensures AutoMissionMode != AutoLoiterMode
  {
    DecodeEncode(Auto);
    DecodeEncode(Loiter);
  }

  // ------------------------------------------------------------------ upload

  /** The answer once the client's upload has returned. */
  function UploadResult(outcome: Outcome, count: nat): (resp: UploadMissionResponse)
    ensures resp.Success <==> outcome.Success?
    ensures resp.Success ==> resp.WaypointsUploaded == Int32Of(count)
                             && resp.Message == "Mission uploaded successfully"
    ensures !resp.Success ==> resp.WaypointsUploaded == 0
                              && resp.Message == "Mission upload failed: " + outcome.error.Text()
  {
    match outcome
    case Success => UploadMissionResponse(true, "Mission uploaded successfully", Int32Of(count))
    case Failure(e) => UploadMissionResponse(false, "Mission upload failed: " + e.Text(), 0)
  }

  /**
    UploadMission up to the wait: no client, then not live, then an empty
    list are answered without touching the mission session; otherwise the
    client's upload starts, and either answers at once (already uploading,
    count not sent) or leaves the caller waiting.
   */
  method UploadMission(deps: Dependencies, waypoints: seq<Waypoint>, now: int, sendErr: Option<string>)
    returns (reply: UploadReply)
    requires deps.ClientOk()
    modifies deps.mavlinkClient
    ensures deps.ClientOk()
    ensures var c := deps.mavlinkClient;
      && (c == null ==> reply == Replied(UploadMissionResponse(false, NoClientText, 0)))
      && (c != null ==> c.connected == old(c.LiveAt(now)) && c.systemID == old(c.systemID))
      && (c != null && (!old(c.LiveAt(now)) || waypoints == []) ==>
            && LinkAndOutboxOnly(c) && c.outbox == old(c.outbox)
            && reply == Replied(UploadMissionResponse(false,
                 if !old(c.LiveAt(now)) then NotLiveText else "Mission must have at least one waypoint", 0)))
      && (c != null && old(c.LiveAt(now)) && waypoints != [] && old(c.missionState.Uploading) ==>
            && LinkAndOutboxOnly(c) && c.outbox == old(c.outbox)
            && reply == Replied(UploadResult(Failure(UploadInProgress), |waypoints|)))
      && (c != null && old(c.LiveAt(now)) && waypoints != [] && !old(c.missionState.Uploading) ==>
            && c.missionState.Waypoints == waypoints && c.missionState.TotalCount == |waypoints|
            && c.missionState.Uploading == sendErr.None?
            && c.outbox == old(c.outbox) + [MissionCount(c.systemID, |waypoints| % 0x1_0000)]
            && reply == (if sendErr.None? then AwaitingVehicle
                         else Replied(UploadResult(Failure(CountSendFailed(sendErr.value)), |waypoints|))))
  {
    if !deps.HasMAVLinkClient() {
      return Replied(UploadMissionResponse(false, NoClientText, 0));
    }
    var client := deps.GetMAVLinkClient();
    var live := client.IsConnected(now);
    if !live {
      return Replied(UploadMissionResponse(false, NotLiveText, 0));
    }
    if |waypoints| == 0 {
      return Replied(UploadMissionResponse(false, "Mission must have at least one waypoint", 0));
    }
    var step := client.StartUpload(waypoints, sendErr);
    match step {
      case Waiting => reply := AwaitingVehicle;
      case Done(outcome) => reply := Replied(UploadResult(outcome, |waypoints|));
    }
  }

  /**
    The waiting handler's next step: after the 30 s timer it answers with the
    timeout; otherwise it answers with the delivered result, if there is one.
   */
  method FinishUpload(deps: Dependencies, count: nat, timerFired: bool) returns (reply: UploadReply)
    requires deps.ClientOk() && deps.mavlinkClient != null
    modifies deps.mavlinkClient
    ensures deps.ClientOk()
    ensures var c := deps.mavlinkClient;
      && (timerFired ==>
            && reply == Replied(UploadResult(Failure(MissionUploadTimeout), count))
            && !c.missionState.Uploading && c.slot == old(c.slot))
      && (!timerFired ==>
            && c.missionState == old(c.missionState) && c.slot.None?
            && reply == (if old(c.slot).None? then AwaitingVehicle
                         else Replied(UploadResult(old(c.slot).value, count))))
      && c.outbox == old(c.outbox) && c.connected == old(c.connected)
  {
    var client := deps.GetMAVLinkClient();
    if timerFired {
      var r := client.OnUploadTimeout();
      return Replied(UploadResult(r, count));
    }
    var step := client.AwaitUpload();
    match step {
      case Waiting => reply := AwaitingVehicle;
      case Done(outcome) => reply := Replied(UploadResult(outcome, count));
    }
  }

  /** Download is not wired to the client: it never succeeds. */
  method DownloadMission(deps: Dependencies) returns (resp: MissionResponse)
    ensures !resp.Success
    ensures resp.Message == (if deps.mavlinkClient == null then NoClientText
                             else "Mission download not yet implemented")
  {
    if !deps.HasMAVLinkClient() {
      return MissionResponse(false, NoClientText);
    }
    resp := MissionResponse(false, "Mission download not yet implemented");
  }

  // ----------------------------------------------------- start, pause, resume

  /**
    StartMission: switch to AUTO/MISSION, then make item 0 current. The
    handler checks liveness at `now`; each client call checks it again, the
    mode change at `modeNow` and the start at `startNow`. When the mode change
    fails the second message is not sent.
   */
  method StartMission(deps: Dependencies, now: int, modeNow: int, startNow: int,
                      modeErr: Option<string>, startErr: Option<string>)
    returns (resp: MissionResponse)
    modifies deps.mavlinkClient
    ensures var c := deps.mavlinkClient;
      && (c == null ==> resp == MissionResponse(false, NoClientText))
      && (c != null ==> LinkAndOutboxOnly(c))
      && (c != null && !old(c.LiveAt(now)) ==>
            resp == MissionResponse(false, NotLiveText) && c.outbox == old(c.outbox) && !c.connected)
      && (c != null && old(c.LiveAt(now)) && !old(c.LiveAt(modeNow)) ==>
            && resp == MissionResponse(false, "Failed to set AUTO mode: " + NotConnected.Text())
            && c.outbox == old(c.outbox) && !c.connected)
      && (c != null && old(c.LiveAt(now)) && old(c.LiveAt(modeNow)) && modeErr.Some? ==>
            && c.outbox == old(c.outbox) + [SetModeMsg(c.systemID, AutoMissionMode)]
            && resp == MissionResponse(false, "Failed to set AUTO mode: " + modeErr.value)
            && c.connected)
      && (c != null && old(c.LiveAt(now)) && old(c.LiveAt(modeNow)) && modeErr.None?
          && !old(c.LiveAt(startNow)) ==>
            && c.outbox == old(c.outbox) + [SetModeMsg(c.systemID, AutoMissionMode)]
            && resp == MissionResponse(false, "Failed to start mission: " + NotConnected.Text())
            && !c.connected)
      && (c != null && old(c.LiveAt(now)) && old(c.LiveAt(modeNow)) && modeErr.None?
          && old(c.LiveAt(startNow)) ==>
            && c.outbox == old(c.outbox) + [SetModeMsg(c.systemID, AutoMissionMode), MissionSetCurrent(c.systemID, 0)]
            && resp == (if startErr.None? then MissionResponse(true, "Mission started successfully")
                        else MissionResponse(false, "Failed to start mission: " + startErr.value))
            && c.connected)
  {
    if !deps.HasMAVLinkClient() {
      return MissionResponse(false, NoClientText);
    }
    var client := deps.GetMAVLinkClient();
    var live := client.IsConnected(now);
    if !live {
      return MissionResponse(false, NotLiveText);
    }
    var r := client.SetMode(AutoMissionMode, modeNow, modeErr);
    if r.Failure? {
      return MissionResponse(false, "Failed to set AUTO mode: " + r.error.Text());
    }
    r := client.StartMission(0, startNow, startErr);
    if r.Failure? {
      return MissionResponse(false, "Failed to start mission: " + r.error.Text());
    }
    resp := MissionResponse(true, "Mission started successfully");
  }

  /** The three handlers that send one message after the two checks. */
  datatype MissionOp = PauseOp | ResumeOp | ClearOp

  function OpMsg(op: MissionOp, systemID: uint8): Msg {
    match op
    case PauseOp => SetModeMsg(systemID, AutoLoiterMode)
    case ResumeOp => SetModeMsg(systemID, AutoMissionMode)
    case ClearOp => MissionClearAll(systemID)
  }

  function OpFailPrefix(op: MissionOp): string {
    match op
    case PauseOp => "Failed to pause mission: "
    case ResumeOp => "Failed to resume mission: "
    case ClearOp => "Failed to clear mission: "
  }

  function OpDoneText(op: MissionOp): string {
    match op
    case PauseOp => "Mission paused successfully"
    case ResumeOp => "Mission resumed successfully"
    case ClearOp => "Mission cleared successfully"
  }

  /**
    The shared pause/resume/clear sequence: no client, then the handler's
    liveness check at `now`, then the client's own at `clientNow`, then
    exactly one message.
   */
  twostate predicate OpHandled(deps: Dependencies, now: int, clientNow: int, op: MissionOp,
                               sendErr: Option<string>, resp: MissionResponse)
    reads deps, deps.mavlinkClient
  {
    var c := old(deps.mavlinkClient);
    && deps.mavlinkClient == c
    && (c == null ==> resp == MissionResponse(false, NoClientText))
    && (c != null ==>
      && LinkAndOutboxOnly(c)
      && c.connected == (old(c.LiveAt(now)) && old(c.LiveAt(clientNow)))
      && (!old(c.LiveAt(now)) ==> resp == MissionResponse(false, NotLiveText) && c.outbox == old(c.outbox))
      && (old(c.LiveAt(now)) && !old(c.LiveAt(clientNow)) ==>
            && resp == MissionResponse(false, OpFailPrefix(op) + NotConnected.Text())
            && c.outbox == old(c.outbox))
      && (old(c.LiveAt(now)) && old(c.LiveAt(clientNow)) ==>
            && c.outbox == old(c.outbox) + [OpMsg(op, c.systemID)]
            && resp == (if sendErr.None? then MissionResponse(true, OpDoneText(op))
                        else MissionResponse(false, OpFailPrefix(op) + sendErr.value))))
  }

  method HandleOp(deps: Dependencies, now: int, clientNow: int, op: MissionOp, sendErr: Option<string>)
    returns (resp: MissionResponse)
    modifies deps.mavlinkClient
    ensures OpHandled(deps, now, clientNow, op, sendErr, resp)
  {
    if !deps.HasMAVLinkClient() {
      return MissionResponse(false, NoClientText);
    }
    var client := deps.GetMAVLinkClient();
    var live := client.IsConnected(now);
    if !live {
      return MissionResponse(false, NotLiveText);
    }
    var r: Outcome;
    match op {
      case PauseOp => r := client.SetMode(AutoLoiterMode, clientNow, sendErr);
      case ResumeOp => r := client.SetMode(AutoMissionMode, clientNow, sendErr);
      case ClearOp => r := client.ClearMission(clientNow, sendErr);
    }
    resp := if r.Success? then MissionResponse(true, OpDoneText(op))
            else MissionResponse(false, OpFailPrefix(op) + r.error.Text());
  }

  /** Pause holds position: the AUTO/LOITER mode. */
  method PauseMission(deps: Dependencies, now: int, clientNow: int, sendErr: Option<string>)
    returns (resp: MissionResponse)
    modifies deps.mavlinkClient
    ensures OpHandled(deps, now, clientNow, PauseOp, sendErr, resp)
  {
    resp := HandleOp(deps, now, clientNow, PauseOp, sendErr);
  }

  /** Resume goes back to the AUTO/MISSION mode. */
  method ResumeMission(deps: Dependencies, now: int, clientNow: int, sendErr: Option<string>)
    returns (resp: MissionResponse)
    modifies deps.mavlinkClient
    ensures OpHandled(deps, now, clientNow, ResumeOp, sendErr, resp)
  {
    resp := HandleOp(deps, now, clientNow, ResumeOp, sendErr);
  }

  method ClearMission(deps: Dependencies, now: int, clientNow: int, sendErr: Option<string>)
    returns (resp: MissionResponse)
    modifies deps.mavlinkClient
    ensures OpHandled(deps, now, clientNow, ClearOp, sendErr, resp)
  {
    resp := HandleOp(deps, now, clientNow, ClearOp, sendErr);
  }

  // ---------------------------------------------------------------- progress

  /** The status rule GetProgress and StreamProgress share. */
  function Classify(active: bool, current: int, total: int): (s: ProgressStatus)
    ensures s == InProgress <==> active && 0 <= current < total
    ensures s == Completed <==> active && current >= total
    ensures s == Idle <==> !active || (current < 0 && current < total)
  {
    if !active then Idle
    else if current >= 0 && current < total then InProgress
    else if current >= total then Completed
    else Idle
  }

  /**
    With the total stuck at 0, an active mission is never reported in
    progress: a non-negative current item reads as completed.
   */
  lemma ZeroTotalNeverInProgress(active: bool, current: int)
    ensures Classify(active, current, 0) != InProgress
    ensures active && current >= 0 ==> Classify(active, current, 0) == Completed
  {
  }

  function GetProgress(deps: Dependencies): (resp: ProgressResponse)
    reads deps, deps.mavlinkClient
    requires deps.ClientOk()
    ensures deps.mavlinkClient == null ==> resp == ProgressResponse(Idle, 0, 0)
    ensures deps.mavlinkClient != null ==>
              && resp.CurrentWaypoint == deps.mavlinkClient.missionState.CurrentWaypoint
              && resp.TotalWaypoints == 0
              && resp.Status != InProgress
              && (resp.Status == Completed <==> deps.mavlinkClient.missionState.MissionActive
                                                && resp.CurrentWaypoint >= 0)
  {
    if !deps.HasMAVLinkClient() then ProgressResponse(Idle, 0, 0)
    else
      var p := deps.GetMAVLinkClient().GetMissionProgress();
      ProgressResponse(Classify(p.2, p.0, p.1), p.0, p.1)
  }

  /** The progress stream's tick in nanoseconds: IntervalMs when positive, else one second. */
  function ProgressInterval(intervalMs: int32): (ns: int)
    ensures ns > 0
    ensures intervalMs > 0 ==> ns == intervalMs * 1_000_000
    ensures intervalMs <= 0 ==> ns == 1_000_000_000
  {
    if intervalMs > 0 then intervalMs * 1_000_000 else 1_000_000_000
  }
}
