/**
 The request-resolution core of the `/temperature` handler: how the optional
 `location` and `sensorId` query parameters become a (room, sensor id) pair,
 and the reading that is sent back.
 */
module TemperatureHandler {
  import opened Rooms

  /** Query string parameters, by name. */
  type Query = map<string, string>

  /** A parameter's value; an absent parameter reads as the empty string. */
  function Param(query: Query, name: string): (v: string)
    ensures name in query ==> v == query[name]
    ensures name !in query ==> v == ""
  {
    if name in query then query[name] else ""
  }

  /** The fixed sensor-id to room table used when only a sensor id is given. */
  function SensorToLocation(sensorId: string): (l: Location)
    ensures l != Unknown <==> sensorId in {"1", "2", "3"}
  {
    match sensorId
    case "1" => LivingRoom
    case "2" => Bedroom
    case "3" => Kitchen
    case _ => Unknown
  }

  /**
   Resolve the (room, sensor id) pair. An explicit sensor id is always kept as
   given; an explicit location always decides the room. A missing sensor id is
   filled in from the room's default, a missing location from the sensor table,
   and with neither the pair is the unknown room with sensor "0".
   */
  function Resolve(location: string, sensorId: string): (r: (Location, string))
    ensures r.1 != ""
    ensures r.1 == sensorId <==> sensorId != ""
    ensures location != "" ==> r.0 == FromStr(location)
  {
    if location == "" && sensorId == "" then
      (Unknown, "0")
    else if location == "" then
      (SensorToLocation(sensorId), sensorId)
    else if sensorId == "" then
      var l := FromStr(location);
      (l, DefaultSensorId(l))
    else
      (FromStr(location), sensorId)
  }

  /** The body of a reply; the temperature is whatever the random source drew. */
  datatype TemperatureReading = TemperatureReading(
    location: string,
    sensorId: string,
    temperatureC: real,
    status: string)

  /**
   Handle one `/temperature` request, given the temperature drawn for it from
   the half-open range [15.0, 30.0).
   */
  function GetTemperature(query: Query, temperature: real): (reading: TemperatureReading)
    requires 15.0 <= temperature < 30.0
    ensures reading.location in DisplayNames
    ensures reading.sensorId != ""
    ensures reading.status == "OK"
    ensures reading.temperatureC == temperature
    ensures 15.0 <= reading.temperatureC < 30.0
  {
    var (l, id) := Resolve(Param(query, "location"), Param(query, "sensorId"));
    TemperatureReading(ToString(l), id, temperature, "OK")
  }

  /** The sensor table undoes the default-sensor table, for every room. */
  lemma SensorTableRoundTrip(l: Location)
    ensures SensorToLocation(DefaultSensorId(l)) == l
  {
  }

  /** With neither parameter, the pair is the unknown room and sensor "0". */
  lemma ResolveNeither()
    ensures Resolve("", "") == (Unknown, "0")
  {
  }

  /** With only a sensor id, the room comes from the sensor table and the id is kept. */
  lemma ResolveSensorOnly(sensorId: string)
    requires sensorId != ""
    ensures Resolve("", sensorId) == (SensorToLocation(sensorId), sensorId)
    ensures sensorId == "1" ==> Resolve("", sensorId).0 == LivingRoom
    ensures sensorId == "2" ==> Resolve("", sensorId).0 == Bedroom
    ensures sensorId == "3" ==> Resolve("", sensorId).0 == Kitchen
    ensures sensorId !in {"1", "2", "3"} ==> Resolve("", sensorId).0 == Unknown
  {
  }

  /** With only a location, the room is the normalised text and the id its default. */
  lemma ResolveLocationOnly(location: string)
    requires location != ""
    ensures Resolve(location, "") == (FromStr(location), DefaultSensorId(FromStr(location)))
  {
  }

  /**
   With both parameters, the pair is taken as given: the id is not checked
   against the room.
   */
  lemma ResolveBoth(location: string, sensorId: string)
    requires location != "" && sensorId != ""
    ensures Resolve(location, sensorId) == (FromStr(location), sensorId)
  {
  }

  /**
   Whenever at most one parameter is given, the resolved pair agrees with the
   sensor table: the room is the one the sensor id stands for.
   */
  lemma ResolveConsistent(location: string, sensorId: string)
    requires location == "" || sensorId == ""
    ensures SensorToLocation(Resolve(location, sensorId).1) == Resolve(location, sensorId).0
  {
  }

  /** When both are given, the pair can disagree with the sensor table. */
  lemma ResolveMismatchAccepted()
    ensures Resolve("kitchen", "1") == (Kitchen, "1")
    ensures SensorToLocation(Resolve("kitchen", "1").1) != Resolve("kitchen", "1").0
  {
    SpellingsRecognised("kitchen");
  }

  /** An absent parameter is handled exactly like one given as the empty string. */
  lemma AbsentIsEmpty(query: Query, name: string, temperature: real)
    requires 15.0 <= temperature < 30.0
    ensures GetTemperature(query - {name}, temperature)
         == GetTemperature(query[name := ""], temperature)
  {
  }

  /** The reply's location and sensor id are the display name and id of the resolved pair. */
  lemma ReadingFromResolve(query: Query, temperature: real)
    requires 15.0 <= temperature < 30.0
    ensures var r := Resolve(Param(query, "location"), Param(query, "sensorId"));
      && FromStr(GetTemperature(query, temperature).location) == r.0
      && GetTemperature(query, temperature).sensorId == r.1
  {
    DisplayNameRoundTrip(Resolve(Param(query, "location"), Param(query, "sensorId")).0);
  }

  /** Sample requests: no parameters, `?location=kitchen`, `?sensorId=2`, `?sensorId=99`. */
  lemma SampleRequests(temperature: real)
    requires 15.0 <= temperature < 30.0
    ensures GetTemperature(map[], temperature).location == "Unknown"
    ensures GetTemperature(map[], temperature).sensorId == "0"
    ensures GetTemperature(map["location" := "kitchen"], temperature).location == "Kitchen"
    ensures GetTemperature(map["location" := "kitchen"], temperature).sensorId == "3"
    ensures GetTemperature(map["sensorId" := "2"], temperature).location == "Bedroom"
    ensures GetTemperature(map["sensorId" := "2"], temperature).sensorId == "2"
    ensures GetTemperature(map["sensorId" := "99"], temperature).location == "Unknown"
    ensures GetTemperature(map["sensorId" := "99"], temperature).sensorId == "99"
  {
    SpellingsRecognised("kitchen");
  }
}
