/**
  The connection service (internal/services/connection.go): Connect's
  decision sequence (request check, stored client, registry lookup, protocol
  routing, MAVLink link-up), Disconnect, GetStatus and the registry listings.

  A Go panic ends a request instead of answering it; a handler's result is
  therefore either its response or the panic. The only panic these handlers
  can reach is closing a client's stop channel a second time.
 */
module ConnectionService {
  import opened Wrappers
  import opened Decimal
  import opened AppConfig
  import opened Drones
  import opened Mavlink
  import opened ServerDeps

  datatype ConnectRequest = ConnectRequest(DroneId: string, TimeoutMs: int32)

  datatype ConnectResponse = ConnectResponse(
    Success: bool, Message: string, DroneId: string, DroneName: string,
    Manufacturer: string, Model: string)

  datatype DisconnectResponse = DisconnectResponse(Success: bool, Message: string)

  datatype StatusResponse = StatusResponse(Connected: bool, Armed: bool)

  datatype DroneInfo = DroneInfo(Id: string, Name: string, Description: string, Protocol: string)

  /** A handler's answer, or the panic that ends the request instead. */
  datatype Reply<R> = Handled(resp: R) | Panicked(reason: string)

  const DoubleClosePanic: string := "close of closed channel"

  function Failed(message: string): ConnectResponse {
    ConnectResponse(false, message, "", "", "", "")
  }

  // ----------------------------------------------------------- the decisions

  /** The wait for the first heartbeat, in ms: the request's when positive, else 5 s. */
  function ConnectTimeoutMs(timeoutMs: int32): (ms: int)
    ensures ms > 0
    ensures timeoutMs > 0 ==> ms == timeoutMs
    ensures timeoutMs <= 0 ==> ms == 5000
  {
    if timeoutMs > 0 then timeoutMs as int else 5000
  }

  datatype LinkParams = LinkParams(port: string, baudRate: int)

  /**
    The serial port and baud rate connectMAVLink opens: the registry entry's
    values, with an empty port or a zero baud rate replaced by the configured
    defaults.
   */
  function MavlinkParams(d: DroneConfig, defaults: MAVLinkConfig): (p: LinkParams)
    ensures "port" in d.Connection && d.Connection["port"].Str? && d.Connection["port"].s != ""
            ==> p.port == d.Connection["port"].s
    ensures !("port" in d.Connection && d.Connection["port"].Str? && d.Connection["port"].s != "")
            ==> p.port == defaults.DefaultPort
    ensures "baud_rate" in d.Connection && d.Connection["baud_rate"].Int? && d.Connection["baud_rate"].i != 0
            ==> p.baudRate == d.Connection["baud_rate"].i
    ensures !("baud_rate" in d.Connection && d.Connection["baud_rate"].Int? && d.Connection["baud_rate"].i != 0)
            ==> p.baudRate == defaults.DefaultBaudRate
  {
    var port := GetConnectionString(d, "port");
    var baudRate := GetConnectionInt(d, "baud_rate");
    LinkParams(if port == "" then defaults.DefaultPort else port,
               if baudRate == 0 then defaults.DefaultBaudRate else baudRate)
  }

  /** Under the built-in defaults every drone gets a non-empty port and a non-zero baud rate. */
  lemma DefaultsFillLinkParams(d: DroneConfig)
    ensures MavlinkParams(d, Default().MAVLink).port != ""
    ensures MavlinkParams(d, Default().MAVLink).baudRate != 0
  {
  }

  datatype Route = ToMavlink | DjiNotImplemented | UnknownProtocol

  function RouteProtocol(protocol: string): (r: Route)
    ensures r == ToMavlink <==> protocol == "mavlink"
    ensures r == DjiNotImplemented <==> protocol == "dji"
    ensures r == UnknownProtocol <==> protocol != "mavlink" && protocol != "dji"
  {
    if protocol == "mavlink" then ToMavlink
    else if protocol == "dji" then DjiNotImplemented
    else UnknownProtocol
  }

  /** The registry's IDs, one per entry, in registry order. */
  function DroneIDs(drones: seq<DroneConfig>): (ids: seq<string>)
    ensures |ids| == |drones|
    ensures forall i :: 0 <= i < |drones| ==> ids[i] == drones[i].ID
  {
    seq(|drones|, i requires 0 <= i < |drones| => drones[i].ID)
  }

  /** An ID is listed exactly when the registry has a drone with it. */
  lemma DroneIDsListRegistered(drones: seq<DroneConfig>, id: string)
    ensures id in DroneIDs(drones) <==> HasID(drones, id)
  {
    var ids := DroneIDs(drones);
    if id in ids {
      var i :| 0 <= i < |ids| && ids[i] == id;
      assert drones[i].ID == id;
    }
    if HasID(drones, id) {
      var i :| 0 <= i < |drones| && drones[i].ID == id;
      assert ids[i] == id;
    }
  }

  /** The elements separated by `sep`. */
  function Join(parts: seq<string>, sep: string): string
    decreases |parts|
  {
    if |parts| == 0 then ""
    else if |parts| == 1 then parts[0]
    else parts[0] + sep + Join(parts[1..], sep)
  }

  /** Go's `%v` of a string slice: the elements between brackets, separated by spaces. */
  function GoList(items: seq<string>): (s: string)
    ensures |s| >= 2 && s[0] == '[' && s[|s| - 1] == ']'
    ensures items == [] ==> s == "[]"
  {
    "[" + Join(items, " ") + "]"
  }

  /** Go's `strings.Split` on a one-character separator: the pieces between separators. */
  function Split(s: string, sep: char): (parts: seq<string>)
    ensures |parts| >= 1
    decreases |s|
  {
    if |s| == 0 then [""]
    else
      var rest := Split(s[1..], sep);
      if s[0] == sep then [""] + rest else [[s[0]] + rest[0]] + rest[1..]
  }

  lemma {:induction false} SplitWithoutSeparator(a: string, sep: char)
    requires sep !in a
    ensures Split(a, sep) == [a]
    decreases |a|
  {
    if |a| > 0 {
      SplitWithoutSeparator(a[1..], sep);
      assert [a[0]] + a[1..] == a;
    }
  }

  lemma {:induction false} SplitAtFirstSeparator(a: string, sep: char, b: string)
    requires sep !in a
    ensures Split(a + [sep] + b, sep) == [a] + Split(b, sep)
    decreases |a|
  {
    var s := a + [sep] + b;
    if |a| == 0 {
      assert s[1..] == b;
    } else {
      assert s[1..] == a[1..] + [sep] + b;
      SplitAtFirstSeparator(a[1..], sep, b);
      assert [a[0]] + a[1..] == a;
    }
  }

  /** Splitting the joined text on the separator gives back the parts, when none contains it. */
  lemma {:induction false} SplitJoin(parts: seq<string>, sep: char)
    requires |parts| >= 1
    requires forall i :: 0 <= i < |parts| ==> sep !in parts[i]
    ensures Split(Join(parts, [sep]), sep) == parts
    decreases |parts|
  {
    if |parts| == 1 {
      SplitWithoutSeparator(parts[0], sep);
    } else {
      SplitAtFirstSeparator(parts[0], sep, Join(parts[1..], [sep]));
      SplitJoin(parts[1..], sep);
      assert [parts[0]] + parts[1..] == parts;
    }
  }

  /**
    The list in a message is readable: between its brackets, splitting on
    spaces gives back exactly the items, in order, when no item has a space.
   */
  lemma GoListSplitsBack(items: seq<string>)
    requires items != []
    requires forall i :: 0 <= i < |items| ==> ' ' !in items[i]
    ensures var s := GoList(items); Split(s[1..|s| - 1], ' ') == items
  {
    var s := GoList(items);
    assert s[1..|s| - 1] == Join(items, [' ']);
    SplitJoin(items, ' ');
  }

  function NotFoundText(id: string, ids: seq<string>): string {
    "Drone not found in registry: " + id + ". Available drones: " + GoList(ids)
  }

  function ConnectedText(name: string, systemID: uint8): string {
    "Connected to " + name + " (System ID: " + IntToString(systemID) + ")"
  }

  const AlreadyConnectedText: string := "Already connected to a drone. Disconnect first."
  const TimeoutText: string := "Connection timeout: " + ConnectionTimeout.Text()

  function CreateFailedText(detail: string): string {
    "Failed to create MAVLink connection: " + ("failed to create MAVLink node: " + detail)
  }

  /** A heartbeat arrives before one of the polls WaitForConnection makes. */
  ghost predicate Heard(arrivals: seq<Option<HeartbeatFrame>>, timeoutMs: int) {
    exists k :: 0 <= k < PollCount(timeoutMs) && ArrivesAt(arrivals, k)
  }

  /**
    The answer of connectMAVLink for drone `d`, and the client `c` stored
    afterwards: success exactly when the transport opens and a heartbeat is
    heard in time, and then `c` is the live, unclosed client on the drone's
    port and baud rate.
   */
  ghost predicate MavlinkReply(d: DroneConfig, defaults: MAVLinkConfig, timeoutMs: int32,
                               openErr: Option<string>, arrivals: seq<Option<HeartbeatFrame>>,
                               resp: ConnectResponse, c: Client?)
    reads c
  {
    if openErr.Some? then resp == Failed(CreateFailedText(openErr.value))
    else if !Heard(arrivals, ConnectTimeoutMs(timeoutMs)) then resp == Failed(TimeoutText)
    else
      && c != null && c.Valid() && c.connected && !c.closed
      && LinkParams(c.port, c.baudRate) == MavlinkParams(d, defaults)
      && c.outbox == [RequestDataStream(c.systemID, MAV_DATA_STREAM_ALL, 10, 1)]
      && resp == ConnectResponse(true, ConnectedText(d.Name, c.systemID), d.ID, d.Name, "PX4", d.Description)
  }

  /**
    The answer once the stored-client checks have passed: an unknown ID lists
    the registry's IDs; a known one is routed by the protocol of its first
    entry (FirstMatch has at most one witness).
   */
  ghost predicate RegisteredReply(drones: seq<DroneConfig>, id: string, defaults: MAVLinkConfig,
                                  timeoutMs: int32, openErr: Option<string>,
                                  arrivals: seq<Option<HeartbeatFrame>>, resp: ConnectResponse, c: Client?)
    reads c
  {
    if !HasID(drones, id) then
      resp == Failed(NotFoundText(id, DroneIDs(drones)))
    else
      exists i :: FirstMatch(drones, id, i) &&
        match RouteProtocol(drones[i].Protocol)
        case DjiNotImplemented => resp == Failed("DJI protocol not yet implemented")
        case UnknownProtocol => resp == Failed("Unknown protocol: " + drones[i].Protocol)
        case ToMavlink => MavlinkReply(drones[i], defaults, timeoutMs, openErr, arrivals, resp, c)
  }

  /**
    Connect succeeds only for a registered drone whose first entry speaks
    MAVLink, whose transport opens, and whose heartbeat arrives in time.
   */
  lemma SuccessNeedsMavlinkAndHeartbeat(
    drones: seq<DroneConfig>, id: string, defaults: MAVLinkConfig, timeoutMs: int32,
    openErr: Option<string>, arrivals: seq<Option<HeartbeatFrame>>, resp: ConnectResponse, c: Client?)
    requires RegisteredReply(drones, id, defaults, timeoutMs, openErr, arrivals, resp, c)
    requires resp.Success
    ensures exists i :: FirstMatch(drones, id, i) && drones[i].Protocol == "mavlink"
    ensures openErr.None? && Heard(arrivals, ConnectTimeoutMs(timeoutMs))
    ensures c != null && c.connected && resp.Manufacturer == "PX4" && resp.DroneId == id
  {
    var i :| FirstMatch(drones, id, i) &&
      match RouteProtocol(drones[i].Protocol)
      case DjiNotImplemented => resp == Failed("DJI protocol not yet implemented")
      case UnknownProtocol => resp == Failed("Unknown protocol: " + drones[i].Protocol)
      case ToMavlink => MavlinkReply(drones[i], defaults, timeoutMs, openErr, arrivals, resp, c);
    assert RouteProtocol(drones[i].Protocol) == ToMavlink;
  }

  // ------------------------------------------------------------- the handlers

  /** getAvailableDroneIDs: a slice of the registry's length, filled entry by entry. */
  method GetAvailableDroneIDs(deps: Dependencies) returns (ids: seq<string>)
    ensures ids == DroneIDs(deps.droneRegistry.Drones)
  {
    var drones := deps.GetDroneRegistry().Drones;
    var a := new string[|drones|];
    for i := 0 to |drones|
      invariant forall j :: 0 <= j < i ==> a[j] == drones[j].ID
    {
      a[i] := drones[i].ID;
    }
    ids := a[..];
  }

  function InfoOf(d: DroneConfig): DroneInfo {
    DroneInfo(d.ID, d.Name, d.Description, d.Protocol)
  }

  /** ListDrones: one summary per registry entry, in registry order. */
  method ListDrones(deps: Dependencies) returns (infos: seq<DroneInfo>)
    ensures |infos| == |deps.droneRegistry.Drones|
    ensures forall i :: 0 <= i < |infos| ==> infos[i] == InfoOf(deps.droneRegistry.Drones[i])
  {
    var drones := deps.GetDroneRegistry().Drones;
    infos := [];
    for i := 0 to |drones|
      invariant |infos| == i
      invariant forall j :: 0 <= j < i ==> infos[j] == InfoOf(drones[j])
    {
      infos := infos + [InfoOf(drones[i])];
    }
  }

  /** Every listed drone is one Connect can find, and its listed ID finds it. */
  lemma {:induction false} ListedDronesAreFindable(drones: seq<DroneConfig>, infos: seq<DroneInfo>, i: int)
    requires |infos| == |drones|
    requires forall j :: 0 <= j < |infos| ==> infos[j] == InfoOf(drones[j])
    requires 0 <= i < |infos|
    ensures HasID(drones, infos[i].Id)
    ensures infos[i].Id in DroneIDs(drones)
  {
    assert drones[i].ID == infos[i].Id;
    DroneIDsListRegistered(drones, infos[i].Id);
  }

  /**
    connectMAVLink: open a client on the drone's port (or the default), wait
    for its first heartbeat, and store it only once it is heard. A client
    that times out is closed and dropped.
   */
  method ConnectMavlink(deps: Dependencies, req: ConnectRequest, d: DroneConfig, now: int,
                        openErr: Option<string>, arrivals: seq<Option<HeartbeatFrame>>)
    returns (resp: ConnectResponse)
    modifies deps`mavlinkClient
    ensures MavlinkReply(d, deps.config.MAVLink, req.TimeoutMs, openErr, arrivals, resp, deps.mavlinkClient)
    ensures resp.Success <==> openErr.None? && Heard(arrivals, ConnectTimeoutMs(req.TimeoutMs))
    ensures resp.Success ==> fresh(deps.mavlinkClient)
    ensures !resp.Success ==> deps.mavlinkClient == old(deps.mavlinkClient)
  {
    var p := MavlinkParams(d, deps.config.MAVLink);
    var created := NewClient(p.port, p.baudRate, now, openErr);
    if created.Err? {
      return Failed("Failed to create MAVLink connection: " + created.error);
    }
    var client := created.value;
    var timeout := ConnectTimeoutMs(req.TimeoutMs);
    var r := client.WaitForConnection(now, timeout, arrivals);
    assert r.Success? <==> Heard(arrivals, timeout);
    if r.Failure? {
      var _ := client.Close();
      return Failed("Connection timeout: " + r.error.Text());
    }
    assert LinkParams(client.port, client.baudRate) == p;
    deps.SetMAVLinkClient(client);
    resp := ConnectResponse(true, ConnectedText(d.Name, client.GetSystemID()), d.ID, d.Name, "PX4",
                            d.Description);
  }

  /** The registry lookup and the protocol switch of Connect. */
  method ConnectRegistered(deps: Dependencies, req: ConnectRequest, now: int,
                           openErr: Option<string>, arrivals: seq<Option<HeartbeatFrame>>)
    returns (resp: ConnectResponse)
    modifies deps`mavlinkClient
    ensures RegisteredReply(deps.droneRegistry.Drones, req.DroneId, deps.config.MAVLink, req.TimeoutMs,
                            openErr, arrivals, resp, deps.mavlinkClient)
    ensures resp.Success ==> fresh(deps.mavlinkClient)
    ensures !resp.Success ==> deps.mavlinkClient == old(deps.mavlinkClient)
  {
    var registry := deps.GetDroneRegistry();
    var found := FindDrone(registry, req.DroneId);
    if found.Err? {
      var ids := GetAvailableDroneIDs(deps);
      return Failed(NotFoundText(req.DroneId, ids));
    }
    var d := found.value;
    ghost var i :| FirstMatch(registry.Drones, req.DroneId, i) && registry.Drones[i] == d;
    match RouteProtocol(d.Protocol) {
      case ToMavlink =>
        resp := ConnectMavlink(deps, req, d, now, openErr, arrivals);
      case DjiNotImplemented =>
        resp := Failed("DJI protocol not yet implemented");
      case UnknownProtocol =>
        resp := Failed("Unknown protocol: " + d.Protocol);
    }
  }

  /**
    What Connect does once it runs to an answer, given the client `c` stored
    beforehand: an empty ID or a live client is refused with nothing changed;
    otherwise a stale client is closed and the registered drone is connected.
    `clearsStale` says whether the closed stale client is also dropped; on
    failure the stored client is then nothing, else the closed one.
   */
  twostate predicate ConnectHandled(deps: Dependencies, c: Client?, req: ConnectRequest, now: int,
                                    openErr: Option<string>, arrivals: seq<Option<HeartbeatFrame>>,
                                    resp: ConnectResponse, clearsStale: bool)
    reads deps, deps.mavlinkClient, c
  {
    if req.DroneId == "" then
      && deps.mavlinkClient == c && resp == Failed("drone_id is required")
      && (c != null ==> unchanged(c))
    else if c != null && old(c.LiveAt(now)) then
      && deps.mavlinkClient == c && resp == Failed(AlreadyConnectedText)
      && unchanged(c)
    else
      && (c != null ==> c.closed && !c.connected)
      && RegisteredReply(deps.droneRegistry.Drones, req.DroneId, deps.config.MAVLink, req.TimeoutMs,
                         openErr, arrivals, resp, deps.mavlinkClient)
      && (!resp.Success ==> deps.mavlinkClient == (if clearsStale then null else c))
  }

  /**
    Connect as written: a stored client that is no longer live is closed but
    left stored. Closing a client whose stop channel is already closed panics,
    so a stale client that an earlier Connect already closed ends the request.
   */
  method ConnectAsWritten(deps: Dependencies, req: ConnectRequest, now: int,
                          openErr: Option<string>, arrivals: seq<Option<HeartbeatFrame>>)
    returns (reply: Reply<ConnectResponse>)
    modifies deps`mavlinkClient, deps.mavlinkClient
    ensures var c := old(deps.mavlinkClient);
      reply.Panicked? <==> req.DroneId != "" && c != null && !old(c.LiveAt(now)) && old(c.closed)
    ensures var c := old(deps.mavlinkClient);
      reply.Panicked? ==> reply.reason == DoubleClosePanic && deps.mavlinkClient == c && c.closed
    ensures reply.Handled? ==>
      ConnectHandled(deps, old(deps.mavlinkClient), req, now, openErr, arrivals, reply.resp, false)
  {
    if req.DroneId == "" {
      return Handled(Failed("drone_id is required"));
    }
    if deps.HasMAVLinkClient() {
      var client := deps.GetMAVLinkClient();
      var live := client.IsConnected(now);
      if live {
        return Handled(Failed(AlreadyConnectedText));
      }
      if client.closed {
        return Panicked(DoubleClosePanic);
      }
      var _ := client.Close();
    }
    var resp := ConnectRegistered(deps, req, now, openErr, arrivals);
    reply := Handled(resp);
  }

  /**
    Connect with the stale client dropped after it is closed. The stored
    client is then never a closed one, so Connect always answers, and a
    failed attempt leaves no client stored.
   */
  method Connect(deps: Dependencies, req: ConnectRequest, now: int,
                 openErr: Option<string>, arrivals: seq<Option<HeartbeatFrame>>)
    returns (resp: ConnectResponse)
    requires deps.ClientOk() && deps.NoClosedClient()
    modifies deps`mavlinkClient, deps.mavlinkClient
    ensures deps.ClientOk() && deps.NoClosedClient()
    ensures ConnectHandled(deps, old(deps.mavlinkClient), req, now, openErr, arrivals, resp, true)
  {
    if req.DroneId == "" {
      return Failed("drone_id is required");
    }
    if deps.HasMAVLinkClient() {
      var client := deps.GetMAVLinkClient();
      var live := client.IsConnected(now);
      if live {
        return Failed(AlreadyConnectedText);
      }
      var _ := client.Close();
      deps.ClearMAVLinkClient();
    }
    resp := ConnectRegistered(deps, req, now, openErr, arrivals);
  }

  /** GetStatus: the link (after the liveness check) and the armed flag; both false without a client. */
  method GetStatus(deps: Dependencies, now: int) returns (resp: StatusResponse)
    modifies deps.mavlinkClient
    ensures var c := deps.mavlinkClient;
      && (c == null ==> resp == StatusResponse(false, false))
      && (c != null ==>
            && resp == StatusResponse(old(c.LiveAt(now)), c.armed)
            && c.connected == old(c.LiveAt(now))
            && LinkAndOutboxOnly(c) && c.outbox == old(c.outbox))
  {
    if !deps.HasMAVLinkClient() {
      return StatusResponse(false, false);
    }
    var client := deps.GetMAVLinkClient();
    var connected := client.IsConnected(now);
    resp := StatusResponse(connected, client.IsArmed());
  }

  /**
    Disconnect: close the stored client and drop it. Close never reports an
    error, so its error branch is not reachable; a client that is already
    closed makes Close panic.
   */
  method Disconnect(deps: Dependencies) returns (reply: Reply<DisconnectResponse>)
    modifies deps`mavlinkClient, deps.mavlinkClient
    ensures var c := old(deps.mavlinkClient);
      && (c == null ==>
            reply == Handled(DisconnectResponse(false, "Not connected to any drone"))
            && deps.mavlinkClient == null)
      && (c != null && old(c.closed) ==> reply == Panicked(DoubleClosePanic))
      && (c != null && !old(c.closed) ==>
            && reply == Handled(DisconnectResponse(true, "Disconnected successfully"))
            && c.closed && !c.connected && deps.mavlinkClient == null)
    ensures old(deps.NoClosedClient()) ==> reply.Handled? && deps.NoClosedClient()
  {
    if !deps.HasMAVLinkClient() {
      return Handled(DisconnectResponse(false, "Not connected to any drone"));
    }
    var client := deps.GetMAVLinkClient();
    if client.closed {
      return Panicked(DoubleClosePanic);
    }
    var _ := client.Close();
    deps.ClearMAVLinkClient();
    reply := Handled(DisconnectResponse(true, "Disconnected successfully"));
  }

  // -------------------------------------------------------------- scenarios

  /**
    The lockout as written: a client heard at 0 ms is stale at 5000 ms; a
    Connect for an unknown drone closes it but keeps it, and from then on
    both Connect and Disconnect panic.
   */
  method StaleClientLockoutAsWritten() returns (first: Reply<ConnectResponse>,
                                                second: Reply<ConnectResponse>,
                                                disconnect: Reply<DisconnectResponse>)
    ensures first == Handled(Failed(NotFoundText("x500", [])))
    ensures second == Panicked(DoubleClosePanic)
    ensures disconnect == Panicked(DoubleClosePanic)
  {
    var deps := new Dependencies(Default(), (path: string) => Err("no registry file"));
    var c := new Client("/dev/ttyUSB0", 57600, 0);
    c.OnHeartbeat(0, 0, 1, 0);
    deps.SetMAVLinkClient(c);
    var req := ConnectRequest("x500", 0);
    first := ConnectAsWritten(deps, req, 5000, None, []);
    second := ConnectAsWritten(deps, req, 6000, None, []);
    disconnect := Disconnect(deps);
  }

  /** The same sequence with the stale client dropped: every request is answered. */
  method StaleClientLockoutCorrected() returns (first: ConnectResponse, second: ConnectResponse,
                                                disconnect: Reply<DisconnectResponse>)
    ensures first == Failed(NotFoundText("x500", []))
    ensures second == first
    ensures disconnect == Handled(DisconnectResponse(false, "Not connected to any drone"))
  {
    var deps := new Dependencies(Default(), (path: string) => Err("no registry file"));
    var c := new Client("/dev/ttyUSB0", 57600, 0);
    c.OnHeartbeat(0, 0, 1, 0);
    deps.SetMAVLinkClient(c);
    var req := ConnectRequest("x500", 0);
    first := Connect(deps, req, 5000, None, []);
    second := Connect(deps, req, 6000, None, []);
    assert deps.mavlinkClient == null;
    disconnect := Disconnect(deps);
  }
}
