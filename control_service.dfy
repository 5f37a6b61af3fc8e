/**
  The control service (internal/services/control.go): each handler checks for
  a stored client, then for a live link, and only then calls the client. The
  mode handler also maps the requested mode to PX4's word before sending it.
 */
module ControlService {
  import opened Wrappers
  import opened Px4Mode
  import opened Mavlink
  import opened ServerDeps

  datatype CommandResponse = CommandResponse(Success: bool, Message: string)

  datatype SetFlightModeResponse = SetFlightModeResponse(Success: bool, Message: string, CurrentMode: FlightMode)

  /** The five one-message commands. */
  datatype Command = ArmCmd | DisarmCmd | TakeoffCmd(altitude: real) | LandCmd | ReturnHomeCmd

  const NotLiveText: string := "Drone is not connected"

  /** Arm and Disarm tell the caller to connect first; the others do not. */
  function NoClientText(cmd: Command): string {
    if cmd.ArmCmd? || cmd.DisarmCmd? then "Not connected to drone. Call Connect first."
    else "Not connected to drone"
  }

  function SentText(cmd: Command): string {
    match cmd
    case ArmCmd => "Arm command sent successfully"
    case DisarmCmd => "Disarm command sent successfully"
    case TakeoffCmd(_) => "Takeoff command sent successfully"
    case LandCmd => "Land command sent successfully"
    case ReturnHomeCmd => "Return home command sent successfully"
  }

  /** The message the client sends for the command. */
  function CommandMsg(cmd: Command, systemID: uint8): Msg {
    match cmd
    case ArmCmd => CommandLong(systemID, MAV_CMD_COMPONENT_ARM_DISARM, 1.0, 0.0, 0.0)
    case DisarmCmd => CommandLong(systemID, MAV_CMD_COMPONENT_ARM_DISARM, 0.0, 0.0, 0.0)
    case TakeoffCmd(alt) => CommandLong(systemID, MAV_CMD_NAV_TAKEOFF, 0.0, 0.0, alt)
    case LandCmd => CommandLong(systemID, MAV_CMD_NAV_LAND, 0.0, 0.0, 0.0)
    case ReturnHomeCmd => CommandLong(systemID, MAV_CMD_NAV_RETURN_TO_LAUNCH, 0.0, 0.0, 0.0)
  }

  /** The reply once the command was handed to the transport: its error text, or success. */
  function SendReply(sendErr: Option<string>, okText: string): (resp: CommandResponse)
    ensures resp.Success <==> sendErr.None?
    ensures resp.Success ==> resp.Message == okText
    ensures !resp.Success ==> resp.Message == sendErr.value
  {
    if sendErr.None? then CommandResponse(true, okText) else CommandResponse(false, sendErr.value)
  }

  /**
    What a command handler does: with no client it answers at once; with a
    client it checks liveness at `now` (which may drop the link flag) and
    answers "not connected" without sending. The client checks liveness again
    at `clientNow`, when it is called, and fails without sending if the link
    has gone stale in between. Otherwise exactly the command's message is
    sent, and the handler succeeds iff the transport accepts it.
   */
  twostate predicate CommandHandled(deps: Dependencies, now: int, clientNow: int, cmd: Command,
                                    sendErr: Option<string>, resp: CommandResponse)
    reads deps, deps.mavlinkClient
  {
    var c := old(deps.mavlinkClient);
    && deps.mavlinkClient == c
    && (c == null ==> resp == CommandResponse(false, NoClientText(cmd)))
    && (c != null ==>
      && LinkAndOutboxOnly(c)
      && c.connected == (old(c.LiveAt(now)) && old(c.LiveAt(clientNow)))
      && (!old(c.LiveAt(now)) ==> resp == CommandResponse(false, NotLiveText) && c.outbox == old(c.outbox))
      && (old(c.LiveAt(now)) && !old(c.LiveAt(clientNow)) ==>
            resp == CommandResponse(false, NotConnected.Text()) && c.outbox == old(c.outbox))
      && (old(c.LiveAt(now)) && old(c.LiveAt(clientNow)) ==>
            && resp == SendReply(sendErr, SentText(cmd))
            && c.outbox == old(c.outbox) + [CommandMsg(cmd, c.systemID)]))
  }

  /** The shared shape of Arm, Disarm, Takeoff, Land and ReturnHome. */
  method HandleCommand(deps: Dependencies, now: int, clientNow: int, cmd: Command, sendErr: Option<string>)
    returns (resp: CommandResponse)
    modifies deps.mavlinkClient
    ensures CommandHandled(deps, now, clientNow, cmd, sendErr, resp)
  {
    if !deps.HasMAVLinkClient() {
      return CommandResponse(false, NoClientText(cmd));
    }
    var client := deps.GetMAVLinkClient();
    var live := client.IsConnected(now);
    if !live {
      return CommandResponse(false, NotLiveText);
    }
    var r: Outcome;
    match cmd {
      case ArmCmd => r := client.Arm(clientNow, sendErr);
      case DisarmCmd => r := client.Disarm(clientNow, sendErr);
      case TakeoffCmd(alt) => r := client.Takeoff(alt, clientNow, sendErr);
      case LandCmd => r := client.Land(clientNow, sendErr);
      case ReturnHomeCmd => r := client.ReturnToLaunch(clientNow, sendErr);
    }
    resp := if r.Success? then CommandResponse(true, SentText(cmd))
            else CommandResponse(false, r.error.Text());
  }

  method Arm(deps: Dependencies, now: int, clientNow: int, sendErr: Option<string>)
    returns (resp: CommandResponse)
    modifies deps.mavlinkClient
    ensures CommandHandled(deps, now, clientNow, ArmCmd, sendErr, resp)
  {
    resp := HandleCommand(deps, now, clientNow, ArmCmd, sendErr);
  }

  method Disarm(deps: Dependencies, now: int, clientNow: int, sendErr: Option<string>)
    returns (resp: CommandResponse)
    modifies deps.mavlinkClient
    ensures CommandHandled(deps, now, clientNow, DisarmCmd, sendErr, resp)
  {
    resp := HandleCommand(deps, now, clientNow, DisarmCmd, sendErr);
  }

  method Takeoff(deps: Dependencies, altitude: real, now: int, clientNow: int, sendErr: Option<string>)
    returns (resp: CommandResponse)
    modifies deps.mavlinkClient
    ensures CommandHandled(deps, now, clientNow, TakeoffCmd(altitude), sendErr, resp)
  {
    resp := HandleCommand(deps, now, clientNow, TakeoffCmd(altitude), sendErr);
  }

  method Land(deps: Dependencies, now: int, clientNow: int, sendErr: Option<string>)
    returns (resp: CommandResponse)
    modifies deps.mavlinkClient
    ensures CommandHandled(deps, now, clientNow, LandCmd, sendErr, resp)
  {
    resp := HandleCommand(deps, now, clientNow, LandCmd, sendErr);
  }

  method ReturnHome(deps: Dependencies, now: int, clientNow: int, sendErr: Option<string>)
    returns (resp: CommandResponse)
    modifies deps.mavlinkClient
    ensures CommandHandled(deps, now, clientNow, ReturnHomeCmd, sendErr, resp)
  {
    resp := HandleCommand(deps, now, clientNow, ReturnHomeCmd, sendErr);
  }

  /**
    SetFlightMode checks, in order: a stored client, a live link at `now`, a
    mode the encoder accepts, the client's own liveness check at `clientNow`,
    and the send. Nothing is sent on any earlier failure; on success the
    requested mode is echoed back.
   */
  method SetFlightMode(deps: Dependencies, mode: FlightMode, now: int, clientNow: int,
                       sendErr: Option<string>)
    returns (resp: SetFlightModeResponse)
    modifies deps.mavlinkClient
    ensures var c := deps.mavlinkClient;
      && (c == null ==> resp == SetFlightModeResponse(false, "Not connected to drone", Unspecified))
      && (c != null ==> LinkAndOutboxOnly(c))
      && (c != null && !old(c.LiveAt(now)) ==>
            && resp == SetFlightModeResponse(false, NotLiveText, Unspecified)
            && c.outbox == old(c.outbox) && !c.connected)
      && (c != null && old(c.LiveAt(now)) && !Supported(mode) ==>
            && resp == SetFlightModeResponse(false, "unsupported flight mode: " + ModeName(mode), Unspecified)
            && c.outbox == old(c.outbox) && c.connected)
      && (c != null && old(c.LiveAt(now)) && Supported(mode) && !old(c.LiveAt(clientNow)) ==>
            && resp == SetFlightModeResponse(false, "Failed to set mode: " + NotConnected.Text(), Unspecified)
            && c.outbox == old(c.outbox) && !c.connected)
      && (c != null && old(c.LiveAt(now)) && Supported(mode) && old(c.LiveAt(clientNow)) ==>
            && c.outbox == old(c.outbox) + [SetModeMsg(c.systemID, Encode(mode).value)]
            && c.connected
            && resp.Success == sendErr.None?
            && (sendErr.None? ==>
                  resp == SetFlightModeResponse(true, "Flight mode changed to " + ModeName(mode), mode))
            && (sendErr.Some? ==>
                  resp == SetFlightModeResponse(false, "Failed to set mode: " + sendErr.value, Unspecified)))
  {
    if !deps.HasMAVLinkClient() {
      return SetFlightModeResponse(false, "Not connected to drone", Unspecified);
    }
    var client := deps.GetMAVLinkClient();
    var live := client.IsConnected(now);
    if !live {
      return SetFlightModeResponse(false, NotLiveText, Unspecified);
    }
    var customMode := Encode(mode);
    if customMode.Err? {
      return SetFlightModeResponse(false, customMode.error.Text(), Unspecified);
    }
    var r := client.SetMode(customMode.value, clientNow, sendErr);
    if r.Failure? {
      return SetFlightModeResponse(false, "Failed to set mode: " + r.error.Text(), Unspecified);
    }
    resp := SetFlightModeResponse(true, "Flight mode changed to " + ModeName(mode), mode);
  }

  /** Position commands are not wired to the client: the handler never succeeds and sends nothing. */
  method GoToPosition(deps: Dependencies, target: Position) returns (resp: CommandResponse)
    ensures !resp.Success
    ensures deps.mavlinkClient == null ==> resp.Message == "Not connected to drone"
    ensures deps.mavlinkClient != null ==> resp.Message == "Go to position not yet implemented"
  {
    if !deps.HasMAVLinkClient() {
      return CommandResponse(false, "Not connected to drone");
    }
    resp := CommandResponse(false, "Go to position not yet implemented");
  }
}
