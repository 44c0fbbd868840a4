/**
 * `update_rooms_data` of `scripts/extract_room_data.py`: every specification
 * file is parsed, the results are indexed by room number (a later file with
 * the same number replaces an earlier one), and every room of every wing whose
 * number has a specification receives the specification's rich fields.
 *
 * Reading `rooms_data.json`, globbing the specification directory and writing
 * the file back are left to the caller: the method takes the decoded wings and
 * the specification files in glob order, and returns the updated wings with
 * the count the script prints.
 */
module Merge {
  import opened Text
  import opened Json
  import Extractor

  datatype SpecFile = SpecFile(name: string, content: string)

  /** A wing of `rooms_data.json`: its rooms, and whatever other fields it has. */
  datatype Wing = Wing(fields: Record, rooms: seq<Record>)

  /** The keys copied from a specification into a room, in the script's order. */
  const MergeKeys: seq<string> := [
    "archetype", "physics_description", "equation", "input_logic", "output_logic",
    "evocative_quote", "evocative_description", "constraints", "altar", "liturgy", "trap"
  ]

  /** `parse_room_spec` of one file. */
  function Parse(f: SpecFile): Record {
    Extractor.ParseRoomSpec(f.name, f.content)
  }

  /** The parsed dictionaries of the files, in glob order. */
  function ParseAll(files: seq<SpecFile>): (r: seq<Record>)
    ensures |r| == |files|
  {
    seq(|files|, i requires 0 <= i < |files| => Parse(files[i]))
  }

  /** `spec_data` after the parsed dictionaries so far: number to dictionary, later ones replacing earlier ones. */
  function SpecIndex(parsed: seq<Record>): map<Value, Record>
  {
    if parsed == [] then map[]
    else
      var m := SpecIndex(parsed[..|parsed| - 1]);
      var last := parsed[|parsed| - 1];
      if "number" in last then m[last["number"] := last] else m
  }

  function SpecData(files: seq<SpecFile>): map<Value, Record> {
    SpecIndex(ParseAll(files))
  }

  /** `room` after copying every key of `keys` that `spec` has. */
  function Overlay(room: Record, spec: Record, keys: seq<string>): Record {
    map k | k in room.Keys + (set x | x in keys && x in spec) :: if k in keys && k in spec then spec[k] else room[k]
  }

  predicate Matches(room: Record, data: map<Value, Record>) {
    "number" in room && room["number"] in data
  }

  function MergeRoom(room: Record, data: map<Value, Record>): Record {
    if Matches(room, data) then Overlay(room, data[room["number"]], MergeKeys) else room
  }

  function MergeWing(wing: Wing, data: map<Value, Record>): Wing {
    Wing(wing.fields, seq(|wing.rooms|, i requires 0 <= i < |wing.rooms| => MergeRoom(wing.rooms[i], data)))
  }

  function MergeWings(wings: seq<Wing>, data: map<Value, Record>): seq<Wing> {
    seq(|wings|, i requires 0 <= i < |wings| => MergeWing(wings[i], data))
  }

  function CountRooms(rooms: seq<Record>, data: map<Value, Record>): nat {
    if rooms == [] then 0
    else CountRooms(rooms[..|rooms| - 1], data) + (if Matches(rooms[|rooms| - 1], data) then 1 else 0)
  }

  function MatchCount(wings: seq<Wing>, data: map<Value, Record>): nat {
    if wings == [] then 0
    else MatchCount(wings[..|wings| - 1], data) + CountRooms(wings[|wings| - 1].rooms, data)
  }

  predicate AllNumbered(wings: seq<Wing>) {
    forall w :: w in wings ==> forall room :: room in w.rooms ==> "number" in room
  }

  /** Adding one more key to the copied list sets that key when the specification has it. */
  lemma OverlayStep(room: Record, spec: Record, keys: seq<string>, key: string)
    ensures Overlay(room, spec, keys + [key]) ==
      if key in spec then Overlay(room, spec, keys)[key := spec[key]] else Overlay(room, spec, keys)
  {
  }

  /** The inner loop of the script: copies each listed key the specification has. */
  method CopySpecFields(room: Record, spec: Record) returns (merged: Record)
    ensures merged == Overlay(room, spec, MergeKeys)
  {
    merged := room;
    var j := 0;
    while j < |MergeKeys|
      invariant 0 <= j <= |MergeKeys|
      invariant merged == Overlay(room, spec, MergeKeys[..j])
    {
      var key := MergeKeys[j];
      if key in spec {
        merged := merged[key := spec[key]];
      }
      assert MergeKeys[..j + 1] == MergeKeys[..j] + [key];
      OverlayStep(room, spec, MergeKeys[..j], key);
      j := j + 1;
    }
    assert MergeKeys[..j] == MergeKeys;
  }

  /** The loop over one wing's rooms: merges every matched room and counts them. */
  method UpdateWing(wing: Wing, specData: map<Value, Record>) returns (merged: Wing, matched: nat)
    requires forall room :: room in wing.rooms ==> "number" in room
    ensures merged == MergeWing(wing, specData)
    ensures matched == CountRooms(wing.rooms, specData)
  {
    var original := wing.rooms;
    var rooms := original;
    matched := 0;
    var r := 0;
    while r < |rooms|
      invariant 0 <= r <= |rooms| == |original|
      invariant forall i :: 0 <= i < r ==> rooms[i] == MergeRoom(original[i], specData)
      invariant forall i :: r <= i < |rooms| ==> rooms[i] == original[i]
      invariant matched == CountRooms(original[..r], specData)
    {
      var room := rooms[r];
      assert room in original;
      var number := room["number"];
      if number in specData {
        room := CopySpecFields(room, specData[number]);
        rooms := rooms[r := room];
        matched := matched + 1;
      }
      assert original[..r + 1][..r] == original[..r];
      r := r + 1;
    }
    assert original[..r] == original;
    merged := Wing(wing.fields, rooms);
  }

  /** Builds `spec_data` from the specification files in glob order. */
  method ReadSpecs(files: seq<SpecFile>) returns (specData: map<Value, Record>)
    ensures specData == SpecIndex(ParseAll(files))
  {
    ghost var all := ParseAll(files);
    specData := map[];
    var f := 0;
    while f < |files|
      invariant 0 <= f <= |files|
      invariant specData == SpecIndex(all[..f])
    {
      SpecIndexNext(all, f);
      specData := ReadSpec(specData, files[f]);
      f := f + 1;
    }
    assert all[..|files|] == all;
  }

  /** One pass of the loop: the parsed file is filed under its number, if it has one. */
  method ReadSpec(specData: map<Value, Record>, file: SpecFile) returns (next: map<Value, Record>)
    ensures next == if "number" in Parse(file) then specData[Parse(file)["number"] := Parse(file)] else specData
  {
    var parsed := Extractor.ParseRoomSpec(file.name, file.content);
    next := specData;
    if "number" in parsed {
      next := next[parsed["number"] := parsed];
    }
  }

  lemma SpecIndexNext(parsed: seq<Record>, i: nat)
    requires i < |parsed|
    ensures SpecIndex(parsed[..i + 1]) ==
      if "number" in parsed[i] then SpecIndex(parsed[..i])[parsed[i]["number"] := parsed[i]] else SpecIndex(parsed[..i])
  {
    assert parsed[..i + 1][..i] == parsed[..i];
  }

  /** The loop over the wings: merges and counts every matched room. */
  method UpdateWings(wings: seq<Wing>, specData: map<Value, Record>) returns (updated: seq<Wing>, count: nat)
    requires AllNumbered(wings)
    ensures updated == MergeWings(wings, specData)
    ensures count == MatchCount(wings, specData)
  {
    updated := [];
    count := 0;
    var w := 0;
    while w < |wings|
      invariant 0 <= w <= |wings|
      invariant updated == MergeWings(wings[..w], specData)
      invariant count == MatchCount(wings[..w], specData)
    {
      assert wings[w] in wings;
      var merged, matched := UpdateWing(wings[w], specData);
      assert wings[..w + 1][..w] == wings[..w];
      updated := updated + [merged];
      count := count + matched;
      w := w + 1;
    }
    assert wings[..w] == wings;
  }

  /**
   * How `update_rooms_data` ends: the wings to write back with the count it
   * prints, or the `KeyError` raised by a room without `"number"`, after
   * which nothing is written.
   */
  datatype Outcome = Updated(wings: seq<Wing>, count: nat) | MissingNumber

  /** `update_rooms_data` on already-decoded wings and the specification files in glob order. */
  method UpdateRoomsData(wings: seq<Wing>, files: seq<SpecFile>) returns (outcome: Outcome)
    ensures AllNumbered(wings) ==>
      outcome == Updated(MergeWings(wings, SpecData(files)), MatchCount(wings, SpecData(files)))
    ensures !AllNumbered(wings) ==> outcome == MissingNumber
  {
    var specData := ReadSpecs(files);
    if !AllNumbered(wings) {
      return MissingNumber;
    }
    var updated, count := UpdateWings(wings, specData);
    outcome := Updated(updated, count);
  }

  // ---------------------------------------------------------------------
  // Properties
  // ---------------------------------------------------------------------

  /**
   * The basic fields are never overwritten: a key outside the copied list
   * (the room's `number`, `name`, ...) keeps its value, and no key is lost.
   */
  lemma MergeKeepsBasicFields(room: Record, data: map<Value, Record>, key: string)
    requires key !in MergeKeys
    ensures key in MergeRoom(room, data) <==> key in room
    ensures key in room ==> MergeRoom(room, data)[key] == room[key]
    ensures room.Keys <= MergeRoom(room, data).Keys
  {
  }

  /** A matched room ends up with each copied key the specification has, with the specification's value. */
  lemma MergeCopiesSpecFields(room: Record, data: map<Value, Record>, key: string)
    requires Matches(room, data) && key in MergeKeys && key in data[room["number"]]
    ensures key in MergeRoom(room, data) && MergeRoom(room, data)[key] == data[room["number"]][key]
  {
  }

  lemma {:induction false} OverlayTwice(room: Record, spec: Record, keys: seq<string>)
    ensures Overlay(Overlay(room, spec, keys), spec, keys) == Overlay(room, spec, keys)
  {
    var once := Overlay(room, spec, keys);
    var twice := Overlay(once, spec, keys);
    assert twice.Keys == once.Keys;
    forall k | k in once ensures twice[k] == once[k] {
    }
  }

  lemma MergeRoomTwice(room: Record, data: map<Value, Record>)
    ensures MergeRoom(MergeRoom(room, data), data) == MergeRoom(room, data)
  {
    if Matches(room, data) {
      var spec := data[room["number"]];
      var once := Overlay(room, spec, MergeKeys);
      assert "number" !in MergeKeys;
      assert once["number"] == room["number"];
      OverlayTwice(room, spec, MergeKeys);
    }
  }

  /** Running the update twice with the same specifications changes nothing the second time. */
  lemma MergeWingsIdempotent(wings: seq<Wing>, data: map<Value, Record>)
    ensures MergeWings(MergeWings(wings, data), data) == MergeWings(wings, data)
  {
    var once := MergeWings(wings, data);
    var twice := MergeWings(once, data);
    forall i | 0 <= i < |wings| ensures twice[i] == once[i] {
      forall j | 0 <= j < |wings[i].rooms| ensures twice[i].rooms[j] == once[i].rooms[j] {
        MergeRoomTwice(wings[i].rooms[j], data);
      }
    }
  }

  /** `spec_data` has a key exactly for the numbers some parsed dictionary carries. */
  lemma {:induction false} SpecIndexKeys(parsed: seq<Record>, n: Value)
    ensures n in SpecIndex(parsed) <==> exists j :: 0 <= j < |parsed| && "number" in parsed[j] && parsed[j]["number"] == n
  {
    if parsed != [] {
      var front := parsed[..|parsed| - 1];
      var last := parsed[|parsed| - 1];
      SpecIndexKeys(front, n);
      if "number" in last && last["number"] == n {
        assert "number" in parsed[|parsed| - 1] && parsed[|parsed| - 1]["number"] == n;
      } else {
        assert forall j :: 0 <= j < |front| ==> front[j] == parsed[j];
      }
    }
  }

  /** When several files carry the same number, the last one in glob order is the one used. */
  lemma {:induction false} SpecIndexLastWins(parsed: seq<Record>, j: nat, n: Value)
    requires j < |parsed| && "number" in parsed[j] && parsed[j]["number"] == n
    requires forall k :: j < k < |parsed| ==> !("number" in parsed[k] && parsed[k]["number"] == n)
    ensures n in SpecIndex(parsed) && SpecIndex(parsed)[n] == parsed[j]
  {
    var front := parsed[..|parsed| - 1];
    if j < |parsed| - 1 {
      forall k | j < k < |front| ensures !("number" in front[k] && front[k]["number"] == n) {
        assert front[k] == parsed[k];
      }
      assert front[j] == parsed[j];
      SpecIndexLastWins(front, j, n);
    }
  }

  /** A file is filed under the digits its name carries after `room_`. */
  lemma FileNumberFromName(f: SpecFile)
    ensures "number" in Parse(f) <==> Extractor.RoomNumber(f.name).Some?
    ensures "number" in Parse(f) ==> Parse(f)["number"] == Str(Extractor.RoomNumber(f.name).value)
  {
    Extractor.NumberKeyFromName(f.name, f.content);
  }
}
