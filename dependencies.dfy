/**
  The shared dependencies every service holds (internal/server/dependencies.go):
  the configuration, the drone registry, the logger and the MAVLink client of
  the current connection, if any. Reading the registry file is a parameter
  `load`, mapping a path to the registry it holds or to a load error.
 */
module ServerDeps {
  import opened Wrappers
  import opened AppConfig
  import opened Drones
  import opened Mavlink

  /** The registry file read when the configuration names none. */
  const DefaultRegistryPath: string := "./data/config/drones.yaml"

  /** The logger, identified by its line prefix. */
  datatype Logger = Logger(prefix: string)

  const ServerLogger: Logger := Logger("[flightpath] ")

  function RegistryPath(cfg: Config): (path: string)
    ensures path != ""
    ensures cfg.Server.DroneRegistryPath != "" ==> path == cfg.Server.DroneRegistryPath
    ensures cfg.Server.DroneRegistryPath == "" ==> path == DefaultRegistryPath
  {
    if cfg.Server.DroneRegistryPath == "" then DefaultRegistryPath else cfg.Server.DroneRegistryPath
  }

  /** A registry that failed to load is replaced by an empty one. */
  function RegistryOrEmpty(loaded: Result<DroneRegistry, string>): (r: DroneRegistry)
    ensures loaded.Ok? ==> r == loaded.value
    ensures loaded.Err? ==> r.Drones == []
  {
    if loaded.Ok? then loaded.value else DroneRegistry([])
  }

  class Dependencies {
    var config: Config
    var droneRegistry: DroneRegistry
    var logger: Logger
    /** The client of the current connection; null when there is none. */
    var mavlinkClient: Client?

    /** The stored client, if any, is in a consistent state. */
    ghost predicate ClientOk()
      reads this, mavlinkClient
    {
      mavlinkClient != null ==> mavlinkClient.Valid()
    }

    /** The stored client, if any, has not been closed: closing it once more is safe. */
    ghost predicate NoClosedClient()
      reads this, mavlinkClient
    {
      mavlinkClient != null ==> !mavlinkClient.closed
    }

    /** NewDependencies: reads the registry from its path, falling back to an empty one. */
    constructor (cfg: Config, load: string -> Result<DroneRegistry, string>)
      ensures config == cfg
      ensures droneRegistry == RegistryOrEmpty(load(RegistryPath(cfg)))
      ensures logger == ServerLogger
      ensures mavlinkClient == null
    {
      config := cfg;
      droneRegistry := RegistryOrEmpty(load(RegistryPath(cfg)));
      logger := ServerLogger;
      mavlinkClient := null;
    }

    method SetLogger(l: Logger)
      modifies this`logger
      ensures logger == l
    {
      logger := l;
    }

    function GetLogger(): Logger
      reads this
    {
      logger
    }

    method SetMAVLinkClient(client: Client)
      modifies this`mavlinkClient
      ensures mavlinkClient == client && HasMAVLinkClient() && GetMAVLinkClient() == client
    {
      mavlinkClient := client;
    }

    function GetMAVLinkClient(): Client?
      reads this
    {
      mavlinkClient
    }

    function HasMAVLinkClient(): (has: bool)
      reads this
      ensures has <==> GetMAVLinkClient() != null
    {
      mavlinkClient != null
    }

    method ClearMAVLinkClient()
      modifies this`mavlinkClient
      ensures mavlinkClient == null && !HasMAVLinkClient()
      ensures NoClosedClient() && ClientOk()
    {
      mavlinkClient := null;
    }

    function GetDroneRegistry(): DroneRegistry
      reads this
    {
      droneRegistry
    }
  }
}
