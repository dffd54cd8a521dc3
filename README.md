# Temperature detector: request resolution

A Dafny model of the request-resolution core of the `temperature_detector`
service (`apps/temperature_detector/src/main.rs`). The service answers
`GET /temperature?location=<text>&sensorId=<id>` with a synthetic reading.
The part with logic is pure. Free-form location text is lower-cased and matched
against a fixed list of spellings, giving one of four rooms (`Unknown` is the
catch-all). Two fixed tables give each room a display name and a default
sensor id. A four-branch rule then turns the two optional parameters into a
(room, sensor id) pair, which goes into the reply.

- `location.dfy`, module `Rooms`: the `Location` enum, ASCII lower-casing,
  the normaliser `FromStr`, the tables `ToString` and `DefaultSensorId`, and
  the lemmas about them.
- `handler.dfy`, module `TemperatureHandler`: parameter lookup (`Param`), the
  sensor table `SensorToLocation`, the resolver `Resolve`, the reply
  `GetTemperature`, and the lemmas about them.

The reply has four fields (`location`, `sensor_id`, `temperature_c`,
`status`) and its status is always `"OK"`. The only route is `GET /temperature`.

## Model

| member | source | states |
|---|---|---|
| Rooms.LowerChar | apps/temperature_detector/src/main.rs:17 | an ASCII upper-case letter becomes its lower-case letter (code point plus 32); every other character is unchanged; no upper-case letter is left |
| Rooms.Lower | apps/temperature_detector/src/main.rs:17 | lower-casing keeps the length, lowers each ASCII upper-case letter and leaves every other character unchanged, so no upper-case letter is left |
| Rooms.LowerOfLower | apps/temperature_detector/src/main.rs:17 | a string with no upper-case ASCII letter is its own lower-case form |
| Rooms.LowerIdempotent | apps/temperature_detector/src/main.rs:17 | lower-casing an already lower-cased string changes nothing |
| Rooms.FromStr | apps/temperature_detector/src/main.rs:16-22 | each room is chosen exactly when the lower-cased text is one of its spellings (five for the living room, four for the bedroom, one for the kitchen); `Unknown` exactly when it is none of them, so every text maps to some room |
| Rooms.FromStrCaseInsensitive | apps/temperature_detector/src/main.rs:16-22 | the room of a text equals the room of its lower-cased form |
| Rooms.SpellingsRecognised | apps/temperature_detector/src/main.rs:18-20 | every listed spelling, as written, maps to its room |
| Rooms.ToString | apps/temperature_detector/src/main.rs:25-32 | a display name is always one of "Living Room", "Bedroom", "Kitchen", "Unknown" |
| Rooms.DefaultSensorId | apps/temperature_detector/src/main.rs:34-41 | a default sensor id is one of "1", "2", "3", "0" and is never empty |
| Rooms.LowerDisplayName | apps/temperature_detector/src/main.rs:17-31 | the lower-cased display name of each room, as the normaliser sees it |
| Rooms.DisplayNameRoundTrip | apps/temperature_detector/src/main.rs:16-31 | normalising a room's display name gives back the room |
| Rooms.TablesInjective | apps/temperature_detector/src/main.rs:25-41 | distinct rooms have distinct display names and distinct default ids (both directions) |
| TemperatureHandler.Param | apps/temperature_detector/src/main.rs:57-58 | a present parameter reads as its value, an absent one as "" |
| TemperatureHandler.SensorToLocation | apps/temperature_detector/src/main.rs:65-70 | the room is known exactly when the id is "1", "2" or "3" |
| TemperatureHandler.Resolve | apps/temperature_detector/src/main.rs:61-79 | the resolved id is never empty; it is the caller's id exactly when one was given; a given location always decides the room |
| TemperatureHandler.SensorTableRoundTrip | apps/temperature_detector/src/main.rs:34-70 | relating the default-id table (lines 34-41) to the sensor-to-room table (lines 65-70): the sensor table maps each room's default id back to that room, "0" to `Unknown` through the catch-all arm |
| TemperatureHandler.ResolveNeither | apps/temperature_detector/src/main.rs:61-62 | no location and no id give (`Unknown`, "0") |
| TemperatureHandler.ResolveSensorOnly | apps/temperature_detector/src/main.rs:63-71 | only an id: the room comes from the table "1", "2", "3", any other id gives `Unknown`, and the id is passed through |
| TemperatureHandler.ResolveLocationOnly | apps/temperature_detector/src/main.rs:72-75 | only a location: the normalised room and its default id |
| TemperatureHandler.ResolveBoth | apps/temperature_detector/src/main.rs:76-78 | both given: the normalised room and the id verbatim |
| TemperatureHandler.ResolveConsistent | apps/temperature_detector/src/main.rs:61-75 | when at most one parameter is given, the resolved id maps back to the resolved room |
| TemperatureHandler.ResolveMismatchAccepted | apps/temperature_detector/src/main.rs:76-78 | "kitchen" with id "1" resolves to (`Kitchen`, "1"), a pair the sensor table disagrees with |
| TemperatureHandler.GetTemperature | apps/temperature_detector/src/main.rs:57-91 | the reply's location is a display name, its id is non-empty, its status is "OK", its temperature is the drawn one; the range [15.0, 30.0) is the random draw's own promise (`gen_range`, line 83), taken as the precondition and passed through, not proved |
| TemperatureHandler.AbsentIsEmpty | apps/temperature_detector/src/main.rs:57-58 | leaving a parameter out gives the same reply as passing it empty |
| TemperatureHandler.ReadingFromResolve | apps/temperature_detector/src/main.rs:86-89 | the reply's location normalises back to the resolved room, and its id is the resolved id |
| TemperatureHandler.SampleRequests | apps/temperature_detector/src/main.rs:61-91 | no parameters gives "Unknown"/"0"; `location=kitchen` gives "Kitchen"/"3"; `sensorId=2` gives "Bedroom"/"2"; `sensorId=99` gives "Unknown"/"99" |

## Left out

- The actix-web server: routing, the bind to 127.0.0.1:8081 and the async `main` (main.rs:54-55, 96-107). These are network I/O and an async runtime.
- Query-string decoding into the parameter map. The model starts from a map of already-decoded parameters.
- The random draw `gen_range(15.0..30.0)` (main.rs:82-83). The drawn value is a parameter of `GetTemperature`, and its range is that function's precondition. The model uses `real` for `f32`, so single-precision rounding is not modelled.
- TemperatureHandler.GetTemperature: the [15.0, 30.0) range of the temperature is the precondition that stands for `gen_range`'s promise; the model passes it through and does not prove it.
- JSON serialisation of the reply (main.rs:45-51, 93). It is a library call with no visible logic.
- Rooms.Lower: only ASCII letters are case-mapped. Rust's `to_lowercase` also maps non-ASCII letters, and some of them to more than one character. No spelling in the tables contains such letters, but non-ASCII text can still lower-case onto a spelling: "KITCHEN" written with the Kelvin sign (U+212A) in place of the K is `Kitchen` in the service and `Unknown` in the model.
