/**
 * `RoomDefinition.swift`: the bundled room definitions, the energy levels
 * read from a room's physics hint, and `RoomLoader`, which holds the decoded
 * wings and the flattened list of every room.
 *
 * `RoomTrap` and `AltarItem` are declared outside the sources modelled here;
 * they are given the shape the room extractor writes (`leak` / `result`, and
 * `name` / `description`). `lowercased()` is modelled by ASCII lower-casing.
 * The `function` field is named `purpose`, `function` being a Dafny keyword.
 */
module Definitions {
  import opened Text
  import Instances

  datatype RoomConstraint = RoomConstraint(name: string, description: string)

  datatype AltarItem = AltarItem(name: string, description: string)

  datatype RoomTrap = RoomTrap(leak: Option<string>, result: Option<string>)

  datatype RoomDefinition = RoomDefinition(
    number: string,
    name: string,
    physicsHint: string,
    purpose: string,
    archetype: Option<string>,
    physicsDescription: Option<string>,
    equation: Option<string>,
    inputLogic: Option<string>,
    outputLogic: Option<string>,
    evocativeQuote: Option<string>,
    evocativeDescription: Option<string>,
    constraints: Option<seq<RoomConstraint>>,
    altar: Option<seq<AltarItem>>,
    liturgy: Option<Instances.RoomLiturgy>,
    trap: Option<RoomTrap>)
  {
    /** `Identifiable.id`: a definition is identified by its number. */
    function Id(): (r: string)
      ensures r == number
    {
      number
    }
  }

  datatype Wing = Wing(wing: string, rooms: seq<RoomDefinition>)

  /** The memberwise initialiser: every rich field starts absent. */
  function NewRoomDefinition(number: string, name: string, physicsHint: string, purpose: string): (r: RoomDefinition)
    ensures r.Id() == number && r.name == name && r.physicsHint == physicsHint && r.purpose == purpose
    ensures r.archetype.None? && r.physicsDescription.None? && r.equation.None?
    ensures r.inputLogic.None? && r.outputLogic.None?
    ensures r.evocativeQuote.None? && r.evocativeDescription.None?
    ensures r.constraints.None? && r.altar.None? && r.liturgy.None? && r.trap.None?
  {
    RoomDefinition(number, name, physicsHint, purpose, None, None, None, None, None, None, None, None, None, None, None)
  }

  // ---------------------------------------------------------------------
  // Energy levels
  // ---------------------------------------------------------------------

  datatype EnergyLevel = LowEnergy | MediumEnergy | HighEnergy | MetaEnergy

  function EnergyColor(e: EnergyLevel): string {
    match e
    case LowEnergy => "blue"
    case MediumEnergy => "purple"
    case HighEnergy => "orange"
    case MetaEnergy => "teal"
  }

  predicate HasHigh(h: string, axis: char) {
    Contains(h, "high " + [axis])
  }

  predicate HasMedium(h: string, axis: char) {
    Contains(h, "medium " + [axis]) || Contains(h, "moderate " + [axis])
  }

  /**
   * The shared shape of `dionysianLevel` and `apollonianLevel`: on the
   * lower-cased hint, `"high <axis>"` wins, then `"medium <axis>"` or
   * `"moderate <axis>"`, then `"meta"`, and otherwise the level is low.
   */
  function LevelFor(hint: string, axis: char): (r: EnergyLevel)
    ensures r == HighEnergy <==> HasHigh(ToLower(hint), axis)
    ensures r == MediumEnergy <==> !HasHigh(ToLower(hint), axis) && HasMedium(ToLower(hint), axis)
    ensures r == MetaEnergy <==>
      !HasHigh(ToLower(hint), axis) && !HasMedium(ToLower(hint), axis) && Contains(ToLower(hint), "meta")
    ensures r == LowEnergy <==>
      !HasHigh(ToLower(hint), axis) && !HasMedium(ToLower(hint), axis) && !Contains(ToLower(hint), "meta")
  {
    var h := ToLower(hint);
    if HasHigh(h, axis) then HighEnergy
    else if HasMedium(h, axis) then MediumEnergy
    else if Contains(h, "meta") then MetaEnergy
    else LowEnergy
  }

  function DionysianLevel(d: RoomDefinition): EnergyLevel {
    LevelFor(d.physicsHint, 'd')
  }

  function ApollonianLevel(d: RoomDefinition): EnergyLevel {
    LevelFor(d.physicsHint, 'a')
  }

  /** A hint that mentions "meta" and neither a high nor a medium marker is meta on both axes. */
  lemma MetaOnBothAxes(d: RoomDefinition)
    requires var h := ToLower(d.physicsHint);
      Contains(h, "meta") &&
      !Contains(h, "high d") && !Contains(h, "medium d") && !Contains(h, "moderate d") &&
      !Contains(h, "high a") && !Contains(h, "medium a") && !Contains(h, "moderate a")
    ensures DionysianLevel(d) == MetaEnergy && ApollonianLevel(d) == MetaEnergy
  {
    assert "high " + ['d'] == "high d" && "medium " + ['d'] == "medium d" && "moderate " + ['d'] == "moderate d";
    assert "high " + ['a'] == "high a" && "medium " + ['a'] == "medium a" && "moderate " + ['a'] == "moderate a";
  }

  lemma {:induction false} ToLowerIdempotent(s: string)
    ensures ToLower(ToLower(s)) == ToLower(s)
  {
    var once := ToLower(s);
    var twice := ToLower(once);
    forall k | 0 <= k < |s| ensures twice[k] == once[k] {
      if 'A' <= s[k] <= 'Z' {
        assert 'a' <= once[k] <= 'z';
      }
    }
  }

  /** The level does not depend on the case of the hint. */
  lemma LevelIgnoresCase(hint: string, axis: char)
    ensures LevelFor(ToLower(hint), axis) == LevelFor(hint, axis)
  {
    ToLowerIdempotent(hint);
  }

  // ---------------------------------------------------------------------
  // Room loader
  // ---------------------------------------------------------------------

  /** `wings.flatMap { $0.rooms }`. */
  function Flatten(wings: seq<Wing>): seq<RoomDefinition> {
    if wings == [] then [] else wings[0].rooms + Flatten(wings[1..])
  }

  /** Flattening keeps the wings' order: the rooms of `a` come before the rooms of `b`. */
  lemma {:induction false} FlattenAppend(a: seq<Wing>, b: seq<Wing>)
    ensures Flatten(a + b) == Flatten(a) + Flatten(b)
  {
    if a != [] {
      assert (a + b)[1..] == a[1..] + b;
      FlattenAppend(a[1..], b);
    } else {
      assert a + b == b;
    }
  }

  /** A room is listed exactly when some wing holds it. */
  lemma {:induction false} FlattenMembership(wings: seq<Wing>, room: RoomDefinition)
    ensures room in Flatten(wings) <==> exists w :: 0 <= w < |wings| && room in wings[w].rooms
  {
    if wings != [] {
      FlattenMembership(wings[1..], room);
      if room in Flatten(wings[1..]) {
        var w :| 0 <= w < |wings[1..]| && room in wings[1..][w].rooms;
        assert room in wings[w + 1].rooms;
      }
      if exists w :: 0 <= w < |wings| && room in wings[w].rooms {
        var w :| 0 <= w < |wings| && room in wings[w].rooms;
        if w > 0 {
          assert room in wings[1..][w - 1].rooms;
        }
      }
    }
  }

  /** Index of the first room whose id is `id`. */
  function FirstWithId(rooms: seq<RoomDefinition>, id: string): (r: Option<nat>)
    ensures r.Some? ==> r.value < |rooms| && rooms[r.value].Id() == id
    ensures r.Some? ==> forall j :: 0 <= j < r.value ==> rooms[j].Id() != id
    ensures r.None? ==> forall j :: 0 <= j < |rooms| ==> rooms[j].Id() != id
  {
    if rooms == [] then None
    else if rooms[0].Id() == id then Some(0)
    else match FirstWithId(rooms[1..], id)
      case None => None
      case Some(k) => Some(k + 1)
  }

  /** Index of the first wing named `name`. */
  function FirstWingNamed(wings: seq<Wing>, name: string): (r: Option<nat>)
    ensures r.Some? ==> r.value < |wings| && wings[r.value].wing == name
    ensures r.Some? ==> forall j :: 0 <= j < r.value ==> wings[j].wing != name
    ensures r.None? ==> forall j :: 0 <= j < |wings| ==> wings[j].wing != name
  {
    if wings == [] then None
    else if wings[0].wing == name then Some(0)
    else match FirstWingNamed(wings[1..], name)
      case None => None
      case Some(k) => Some(k + 1)
  }

  class RoomLoader {
    var wings: seq<Wing>
    var allRooms: seq<RoomDefinition>

    /** `allRooms` is always the flattening of `wings`. */
    predicate Valid()
      reads this
    {
      allRooms == Flatten(wings)
    }

    /**
     * The shared loader: `decoded` is the result of reading and decoding the
     * bundled `rooms_data.json`, `None` when either step failed.
     */
    constructor (decoded: Option<seq<Wing>>)
      ensures Valid()
      ensures wings == decoded.GetOr([])
    {
      wings := [];
      allRooms := [];
      new;
      LoadRooms(decoded);
    }

    /** On success both lists are replaced; on failure nothing changes. */
    method LoadRooms(decoded: Option<seq<Wing>>)
      requires Valid()
      modifies this
      ensures Valid()
      ensures decoded.Some? ==> wings == decoded.value
      ensures decoded.None? ==> wings == old(wings) && allRooms == old(allRooms)
    {
      if decoded.Some? {
        wings := decoded.value;
        allRooms := Flatten(wings);
      }
    }

    /** `room(byId:)`: the first room with that id, if any. */
    function RoomById(id: string): (r: Option<RoomDefinition>)
      reads this
    {
      match FirstWithId(allRooms, id)
      case Some(k) => Some(allRooms[k])
      case None => None
    }

    /** `definition(for:)` forwards to `room(byId:)`. */
    function Definition(id: string): Option<RoomDefinition>
      reads this
    {
      RoomById(id)
    }

    /** `rooms(inWing:)`: the rooms of the first wing with exactly that name, or none. */
    function RoomsInWing(wingName: string): seq<RoomDefinition>
      reads this
    {
      match FirstWingNamed(wings, wingName)
      case Some(k) => wings[k].rooms
      case None => []
    }
  }

  /**
   * `room(byId:)` and `definition(for:)` agree, find a room exactly when
   * some wing holds a room with that id, and return the first such room in
   * wing order.
   */
  lemma LookupById(loader: RoomLoader, id: string)
    requires loader.Valid()
    ensures loader.Definition(id) == loader.RoomById(id)
    ensures loader.RoomById(id).Some? <==>
      exists w, j :: 0 <= w < |loader.wings| && 0 <= j < |loader.wings[w].rooms| && loader.wings[w].rooms[j].Id() == id
    ensures loader.RoomById(id).Some? ==>
      loader.RoomById(id).value.Id() == id && loader.RoomById(id).value in loader.allRooms
  {
    var rooms := loader.allRooms;
    if exists w, j :: 0 <= w < |loader.wings| && 0 <= j < |loader.wings[w].rooms| && loader.wings[w].rooms[j].Id() == id {
      var w, j :| 0 <= w < |loader.wings| && 0 <= j < |loader.wings[w].rooms| && loader.wings[w].rooms[j].Id() == id;
      FlattenMembership(loader.wings, loader.wings[w].rooms[j]);
    }
    if loader.RoomById(id).Some? {
      var room := loader.RoomById(id).value;
      FlattenMembership(loader.wings, room);
      var w :| 0 <= w < |loader.wings| && room in loader.wings[w].rooms;
      var j :| 0 <= j < |loader.wings[w].rooms| && loader.wings[w].rooms[j] == room;
    }
  }

  /** `rooms(inWing:)` is the first wing with that name's rooms, and empty when no wing has it. */
  lemma RoomsInWingLookup(loader: RoomLoader, wingName: string, k: nat)
    requires k < |loader.wings| && loader.wings[k].wing == wingName
    requires forall j :: 0 <= j < k ==> loader.wings[j].wing != wingName
    ensures loader.RoomsInWing(wingName) == loader.wings[k].rooms
  {
  }

  lemma RoomsInWingMissing(loader: RoomLoader, wingName: string)
    requires forall j :: 0 <= j < |loader.wings| ==> loader.wings[j].wing != wingName
    ensures loader.RoomsInWing(wingName) == []
  {
  }
}
