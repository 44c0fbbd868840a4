/**
 * `Season.swift`: a planning season ruled by one of the six wings, active
 * between its start and end dates. Dates are instants in whole seconds.
 */
module Seasons {
  import opened Text

  datatype Wing = Foundation | Administration | MachineShop | Wilderness | Forum | Observatory

  const AllWings: seq<Wing> := [Foundation, Administration, MachineShop, Wilderness, Forum, Observatory]

  function WingRaw(w: Wing): string {
    match w
    case Foundation => "I. Foundation"
    case Administration => "II. Administration"
    case MachineShop => "III. Machine Shop"
    case Wilderness => "IV. Wilderness"
    case Forum => "V. Forum"
    case Observatory => "VI. Observatory"
  }

  /** `Wing(rawValue:)`. */
  function WingFromRaw(s: string): (r: Option<Wing>)
    ensures r.Some? ==> WingRaw(r.value) == s
  {
    if s == "I. Foundation" then Some(Foundation)
    else if s == "II. Administration" then Some(Administration)
    else if s == "III. Machine Shop" then Some(MachineShop)
    else if s == "IV. Wilderness" then Some(Wilderness)
    else if s == "V. Forum" then Some(Forum)
    else if s == "VI. Observatory" then Some(Observatory)
    else None
  }

  /** Parsing a wing's raw value gives the wing back, and only raw values parse. */
  lemma WingRawRoundTrip(w: Wing, s: string)
    ensures WingFromRaw(WingRaw(w)) == Some(w)
    ensures WingFromRaw(s).Some? <==> exists v :: v in AllWings && WingRaw(v) == s
  {
    if WingFromRaw(s).Some? {
      assert WingFromRaw(s).value in AllWings;
    }
  }

  function DisplayName(w: Wing): string {
    match w
    case Foundation => "Foundation (Restoration)"
    case Administration => "Administration (Governance)"
    case MachineShop => "Machine Shop (Production)"
    case Wilderness => "Wilderness (Exploration)"
    case Forum => "Forum (Exchange)"
    case Observatory => "Observatory (Metacognition)"
  }

  function WingColor(w: Wing): string {
    match w
    case Foundation => "blue"
    case Administration => "gray"
    case MachineShop => "orange"
    case Wilderness => "green"
    case Forum => "purple"
    case Observatory => "cyan"
  }

  function EnergyDescription(w: Wing): string {
    match w
    case Foundation => "Low D, Low A"
    case Administration => "Low D, High A"
    case MachineShop => "High D, High A"
    case Wilderness => "High D, Low A"
    case Forum => "Medium D/A"
    case Observatory => "Meta"
  }

  /** The six wings have six distinct raw values, names, colours and energy descriptions. */
  lemma WingTablesInjective(v: Wing, w: Wing)
    ensures WingRaw(v) == WingRaw(w) ==> v == w
    ensures DisplayName(v) == DisplayName(w) ==> v == w
    ensures WingColor(v) == WingColor(w) ==> v == w
    ensures EnergyDescription(v) == EnergyDescription(w) ==> v == w
  {
  }

  datatype Season = Season(
    id: Option<string>,
    name: string,
    primaryWing: Wing,
    startDate: int,
    endDate: int,
    focusRooms: seq<string>,
    notes: Option<string>)

  /** The initialiser: no focus rooms and no notes unless given. */
  function NewSeason(name: string, primaryWing: Wing, startDate: int, endDate: int,
                     focusRooms: Option<seq<string>>, notes: Option<string>): (s: Season)
    ensures s.id.None? && s.name == name && s.primaryWing == primaryWing
    ensures s.startDate == startDate && s.endDate == endDate
    ensures s.focusRooms == focusRooms.GetOr([]) && s.notes == notes
  {
    Season(None, name, primaryWing, startDate, endDate, focusRooms.GetOr([]), notes)
  }

  /** `isActive`, with the clock reading `now` as a parameter. */
  predicate IsActive(s: Season, now: int) {
    now >= s.startDate && now <= s.endDate
  }

  /** Active on both end dates, and never active when the season ends before it starts. */
  lemma ActiveInterval(s: Season, now: int)
    ensures s.startDate <= s.endDate ==> IsActive(s, s.startDate) && IsActive(s, s.endDate)
    ensures s.endDate < s.startDate ==> !IsActive(s, now)
    ensures IsActive(s, now) ==> s.startDate <= s.endDate
  {
  }
}
