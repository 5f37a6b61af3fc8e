/**
  The drone registry (internal/config/drones.go): the list of known drones, the
  lookup by ID and the typed getters over each drone's connection parameters.
  Loading the registry from its YAML file is not part of this model; a registry
  is given as a value.
 */
module Drones {
  import opened Wrappers

  /**
    A value of a drone's `connection` map as the YAML decoder produces it:
    a string, an int, or anything else (a float, a bool, a list, ...).
   */
  datatype ConnValue = Str(s: string) | Int(i: int) | OtherValue

  datatype DroneConfig = DroneConfig(
    ID: string,
    Name: string,
    Description: string,
    Protocol: string,
    Connection: map<string, ConnValue>)

  datatype DroneRegistry = DroneRegistry(Drones: seq<DroneConfig>)

  predicate HasID(drones: seq<DroneConfig>, id: string) {
    exists i :: 0 <= i < |drones| && drones[i].ID == id
  }

  /** Entry i is the first one whose ID is `id`. */
  predicate FirstMatch(drones: seq<DroneConfig>, id: string, i: int) {
    && 0 <= i < |drones| && drones[i].ID == id
    && forall j :: 0 <= j < i ==> drones[j].ID != id
  }

  /** There is at most one first match. */
  lemma FirstMatchUnique(drones: seq<DroneConfig>, id: string, i: int, k: int)
    requires FirstMatch(drones, id, i) && FirstMatch(drones, id, k)
    ensures i == k
  {
  }

  /**
    Linear search with early return: the first entry whose ID equals `id`, or
    the error "drone not found: <id>" when no entry has it.
   */
  method FindDrone(r: DroneRegistry, id: string) returns (res: Result<DroneConfig, string>)
    ensures res.Ok? <==> HasID(r.Drones, id)
    ensures res.Ok? ==> exists i :: FirstMatch(r.Drones, id, i) && r.Drones[i] == res.value
    ensures res.Err? ==> res.error == "drone not found: " + id
  {
    var i := 0;
    while i < |r.Drones|
      invariant 0 <= i <= |r.Drones|
      invariant forall j :: 0 <= j < i ==> r.Drones[j].ID != id
    {
      if r.Drones[i].ID == id {
        assert FirstMatch(r.Drones, id, i);
        return Ok(r.Drones[i]);
      }
      i := i + 1;
    }
    return Err("drone not found: " + id);
  }

  /** The parameter as a string; "" when it is missing or holds another kind of value. */
  function GetConnectionString(d: DroneConfig, key: string): (v: string)
    ensures key in d.Connection && d.Connection[key].Str? ==> v == d.Connection[key].s
    ensures v != "" ==> key in d.Connection && d.Connection[key] == Str(v)
    ensures key !in d.Connection ==> v == ""
  {
    if key in d.Connection then
      match d.Connection[key]
      case Str(s) => s
      case _ => ""
    else ""
  }

  /** The parameter as an int; 0 when it is missing or holds another kind of value. */
  function GetConnectionInt(d: DroneConfig, key: string): (v: int)
    ensures key in d.Connection && d.Connection[key].Int? ==> v == d.Connection[key].i
    ensures v != 0 ==> key in d.Connection && d.Connection[key] == Int(v)
    ensures key !in d.Connection ==> v == 0
  {
    if key in d.Connection then
      match d.Connection[key]
      case Int(n) => n
      case _ => 0
    else 0
  }

  /** A number written as a quoted string (`baud_rate: "57600"`) reads as 0. */
  lemma QuotedNumberReadsAsZero(d: DroneConfig, key: string, text: string)
    requires key in d.Connection && d.Connection[key] == Str(text)
    ensures GetConnectionInt(d, key) == 0
    ensures GetConnectionString(d, key) == text
  {
  }
}
