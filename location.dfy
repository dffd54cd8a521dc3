/**
 The rooms the temperature service knows about, the normaliser that maps
 free-form location text onto them, and the two per-room tables (display
 name and default sensor id).
 */
module Rooms {

  /** A canonical room; `Unknown` is the catch-all for unrecognised text. */
  datatype Location = LivingRoom | Bedroom | Kitchen | Unknown

  /** Lower-case form of one character, ASCII letters only. */
  function LowerChar(c: char): (d: char)
    ensures 'A' <= c <= 'Z' ==> d as int == c as int + 32
    ensures !('A' <= c <= 'Z') ==> d == c
    ensures !('A' <= d <= 'Z')
  {
    if 'A' <= c <= 'Z' then (c as int + 32) as char else c
  }

  /** True when `s` holds no upper-case ASCII letter. */
  predicate IsLower(s: string) {
    forall i :: 0 <= i < |s| ==> !('A' <= s[i] <= 'Z')
  }

  /** Character-by-character lower-casing of a string (ASCII case mapping). */
  function Lower(s: string): (r: string)
    ensures |r| == |s|
    ensures forall i :: 0 <= i < |s| ==>
      if 'A' <= s[i] <= 'Z' then r[i] as int == s[i] as int + 32 else r[i] == s[i]
    ensures IsLower(r)
  {
    seq(|s|, i requires 0 <= i < |s| => LowerChar(s[i]))
  }

  /** A string with no upper-case letter is its own lower-case form. */
  lemma LowerOfLower(s: string)
    requires IsLower(s)
    ensures Lower(s) == s
  {
  }

  /** Lower-casing twice is lower-casing once. */
  lemma LowerIdempotent(s: string)
    ensures Lower(Lower(s)) == Lower(s)
  {
  }

  /** The spellings the normaliser accepts for each room, after lower-casing. */
  const LivingRoomSpellings: set<string> :=
    {"living room", "livingroom", "living", "living_room", "living rum"}
  const BedroomSpellings: set<string> := {"bedroom", "bed", "bed_room", "bedrum"}
  const KitchenSpellings: set<string> := {"kitchen"}

  /** The display names the service ever reports for a room. */
  const DisplayNames: set<string> := {"Living Room", "Bedroom", "Kitchen", "Unknown"}

  /** The default sensor ids, one per room. */
  const DefaultSensorIds: set<string> := {"1", "2", "3", "0"}

  /**
   Normalise free-form location text: lower-case it, then match a fixed
   synonym list. Each room is chosen exactly when the lower-cased text is one
   of its spellings, and `Unknown` exactly when it is none of them.
   */
  function FromStr(s: string): (l: Location)
    ensures l == LivingRoom <==> Lower(s) in LivingRoomSpellings
    ensures l == Bedroom <==> Lower(s) in BedroomSpellings
    ensures l == Kitchen <==> Lower(s) in KitchenSpellings
    ensures l == Unknown <==> Lower(s) !in LivingRoomSpellings + BedroomSpellings + KitchenSpellings
  {
    match Lower(s)
    case "living room" => LivingRoom
    case "livingroom" => LivingRoom
    case "living" => LivingRoom
    case "living_room" => LivingRoom
    case "living rum" => LivingRoom
    case "bedroom" => Bedroom
    case "bed" => Bedroom
    case "bed_room" => Bedroom
    case "bedrum" => Bedroom
    case "kitchen" => Kitchen
    case _ => Unknown
  }

  /** Display name of a room. */
  function ToString(l: Location): (name: string)
    ensures name in DisplayNames
  {
    match l
    case LivingRoom => "Living Room"
    case Bedroom => "Bedroom"
    case Kitchen => "Kitchen"
    case Unknown => "Unknown"
  }

  /** Sensor id used for a room when the caller names only the room. */
  function DefaultSensorId(l: Location): (id: string)
    ensures id in DefaultSensorIds
    ensures id != ""
  {
    match l
    case LivingRoom => "1"
    case Bedroom => "2"
    case Kitchen => "3"
    case Unknown => "0"
  }

  /** Matching happens after lower-casing, so case never changes the room. */
  lemma FromStrCaseInsensitive(s: string)
    ensures FromStr(s) == FromStr(Lower(s))
  {
    LowerIdempotent(s);
  }

  /** Every listed spelling, as written, is recognised. */
  lemma SpellingsRecognised(w: string)
    ensures w in LivingRoomSpellings ==> FromStr(w) == LivingRoom
    ensures w in BedroomSpellings ==> FromStr(w) == Bedroom
    ensures w in KitchenSpellings ==> FromStr(w) == Kitchen
  {
    if w in LivingRoomSpellings + BedroomSpellings + KitchenSpellings {
      LowerOfLower(w);
    }
  }

  /** The lower-case form of each display name, as the normaliser sees it. */
  lemma LowerDisplayName(l: Location)
    ensures l == LivingRoom ==> Lower(ToString(l)) == "living room"
    ensures l == Bedroom ==> Lower(ToString(l)) == "bedroom"
    ensures l == Kitchen ==> Lower(ToString(l)) == "kitchen"
    ensures l == Unknown ==> Lower(ToString(l)) == "unknown"
  {
  }

  /** Reading a room's display name back through the normaliser gives the room. */
  lemma DisplayNameRoundTrip(l: Location)
    ensures FromStr(ToString(l)) == l
  {
    LowerDisplayName(l);
  }

  /** Distinct rooms have distinct display names and distinct default sensor ids. */
  lemma TablesInjective(l: Location, m: Location)
    ensures ToString(l) == ToString(m) <==> l == m
    ensures DefaultSensorId(l) == DefaultSensorId(m) <==> l == m
  {
  }
}
