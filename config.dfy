/**
  Application configuration (internal/config/config.go): the built-in defaults,
  the validation run before the server starts, and the listen address.
 */
module AppConfig {
  import opened Wrappers
  import opened Decimal

  datatype ServerConfig = ServerConfig(
    Host: string,
    Port: int,
    CORSOrigins: seq<string>,
    DroneRegistryPath: string)

  /** Connection settings used when a drone's registry entry leaves them out. */
  datatype MAVLinkConfig = MAVLinkConfig(DefaultPort: string, DefaultBaudRate: int)

  datatype LoggingConfig = LoggingConfig(Level: string, Format: string)

  datatype Config = Config(Server: ServerConfig, MAVLink: MAVLinkConfig, Logging: LoggingConfig)

  datatype ValidationError = InvalidPort(port: int) | InvalidLogLevel(level: string)
  {
    function Message(): string {
      match this
      case InvalidPort(p) => "invalid port: " + IntToString(p)
      case InvalidLogLevel(l) => "invalid log level: " + l
    }
  }

  /** The log levels Validate accepts. */
  const ValidLevels: set<string> := {"debug", "info", "warn", "error"}

  predicate PortInRange(port: int) {
    1 <= port <= 65535
  }

  /** The configuration the server starts from before the environment overrides it. */
  function Default(): (c: Config)
    ensures Validate(c).None?
    ensures c.Server.Port == 8080 && c.Logging.Level == "info"
    ensures c.Server.DroneRegistryPath != ""
    ensures c.MAVLink.DefaultBaudRate > 0 && c.MAVLink.DefaultPort != ""
  {
    Config(
      ServerConfig("0.0.0.0", 8080, ["http://localhost:5173", "http://localhost:3000"],
                   "./data/config/drones.yaml"),
      MAVLinkConfig("/dev/ttyUSB0", 57600),
      LoggingConfig("info", "text"))
  }

  /**
    None when the configuration is acceptable; otherwise the first failing check.
    The port is checked before the log level.
   */
  function Validate(c: Config): (r: Option<ValidationError>)
    ensures r.None? <==> PortInRange(c.Server.Port) && c.Logging.Level in ValidLevels
    ensures !PortInRange(c.Server.Port) ==> r == Some(InvalidPort(c.Server.Port))
    ensures PortInRange(c.Server.Port) && c.Logging.Level !in ValidLevels
            ==> r == Some(InvalidLogLevel(c.Logging.Level))
  {
    if c.Server.Port < 1 || c.Server.Port > 65535 then
      Some(InvalidPort(c.Server.Port))
    else if c.Logging.Level !in ValidLevels then
      Some(InvalidLogLevel(c.Logging.Level))
    else
      None
  }

  /** A configuration wrong in both port and log level is reported for its port. */
  lemma PortReportedFirst(c: Config)
    requires !PortInRange(c.Server.Port) && c.Logging.Level !in ValidLevels
    ensures Validate(c) == Some(InvalidPort(c.Server.Port))
    ensures Validate(c).value.Message() == "invalid port: " + IntToString(c.Server.Port)
  {
  }

  /** The listen address, "host:port". */
  function ServerAddr(c: Config): (addr: string)
    ensures |addr| > |c.Server.Host| && addr[..|c.Server.Host|] == c.Server.Host
    ensures addr[|c.Server.Host|] == ':'
  {
    c.Server.Host + ":" + IntToString(c.Server.Port)
  }

  /**
    The address splits back into its parts: the host is everything before the
    last ':' (the port text holds no ':'), and the rest reads back as the port.
   */
  lemma ServerAddrSplits(c: Config)
    ensures var addr := ServerAddr(c);
      var tail := addr[|c.Server.Host| + 1..];
      && tail == IntToString(c.Server.Port)
      && (forall i :: |c.Server.Host| < i < |addr| ==> addr[i] != ':')
      && ParseInt(tail) == c.Server.Port
  {
    var addr := ServerAddr(c);
    var tail := addr[|c.Server.Host| + 1..];
    assert tail == IntToString(c.Server.Port);
    IntToStringRoundTrip(c.Server.Port);
    forall i | |c.Server.Host| < i < |addr|
      ensures addr[i] != ':'
    {
      var k := i - |c.Server.Host| - 1;
      assert addr[i] == tail[k];
      if c.Server.Port < 0 {
        assert k == 0 || tail[k] == tail[1..][k - 1];
      }
    }
  }
}
