/**
 * `BlueprintView.swift`: the card view of every room class by wing. A
 * search text and a selected wing narrow the wings listed and the rooms
 * shown in each; the wing chips show each wing's name up to its
 * parenthesised subtitle.
 */
module Blueprint {
  import opened Text
  import Definitions

  // ---------------------------------------------------------------------
  // Filtering
  // ---------------------------------------------------------------------

  /** A room matches a search when its name or its function contains the text, ignoring case. */
  predicate Matches(room: Definitions.RoomDefinition, search: string) {
    ContainsIgnoringCase(room.name, search) || ContainsIgnoringCase(room.purpose, search)
  }

  /** `filteredRooms(in:)`: every room for an empty search, else the matching rooms in their order. */
  function FilteredRooms(rooms: seq<Definitions.RoomDefinition>, search: string): (r: seq<Definitions.RoomDefinition>)
    ensures |r| <= |rooms|
    ensures search == "" ==> r == rooms
    ensures forall x :: x in r <==> x in rooms && (search == "" || Matches(x, search))
  {
    if search == "" || rooms == [] then rooms
    else
      var rest := FilteredRooms(rooms[1..], search);
      assert rooms == [rooms[0]] + rooms[1..];
      if Matches(rooms[0], search) then [rooms[0]] + rest else rest
  }

  /** `r` is `s` with some elements left out, the rest in their order. */
  predicate Subsequence<T(==)>(r: seq<T>, s: seq<T>)
    decreases |s|
  {
    if r == [] then true
    else if s == [] then false
    else if r[0] == s[0] then Subsequence(r[1..], s[1..])
    else Subsequence(r, s[1..])
  }

  /** The shown rooms keep the wing's order. */
  lemma {:induction false} FilteredRoomsInOrder(rooms: seq<Definitions.RoomDefinition>, search: string)
    ensures Subsequence(FilteredRooms(rooms, search), rooms)
    decreases |rooms|
  {
    if search == "" {
      SubsequenceOfSelf(rooms);
    } else if rooms != [] {
      FilteredRoomsInOrder(rooms[1..], search);
      var rest := FilteredRooms(rooms[1..], search);
      if Matches(rooms[0], search) {
        assert ([rooms[0]] + rest)[1..] == rest;
      } else if rest != [] {
        assert rest[0] in rooms[1..];
      }
    }
  }

  lemma {:induction false} SubsequenceOfSelf<T>(s: seq<T>)
    ensures Subsequence(s, s)
    decreases |s|
  {
    if s != [] {
      SubsequenceOfSelf(s[1..]);
    }
  }

  /** Filtering what is already filtered by the same text changes nothing. */
  lemma {:induction false} FilteredRoomsIdempotent(rooms: seq<Definitions.RoomDefinition>, search: string)
    ensures FilteredRooms(FilteredRooms(rooms, search), search) == FilteredRooms(rooms, search)
    decreases |rooms|
  {
    if search != "" && rooms != [] {
      FilteredRoomsIdempotent(rooms[1..], search);
      var rest := FilteredRooms(rooms[1..], search);
      if Matches(rooms[0], search) {
        assert ([rooms[0]] + rest)[1..] == rest;
      }
    }
  }

  /** A wing passes the chip filter when no wing is selected or it is the selected one. */
  predicate Selected(w: Definitions.Wing, selected: Option<string>) {
    selected.None? || selected.value == w.wing
  }

  /**
   * `filteredWings`: the wings the selection lets through, and of those,
   * for a non-empty search, only the ones with a matching room.
   */
  function FilteredWings(wings: seq<Definitions.Wing>, selected: Option<string>, search: string): (r: seq<Definitions.Wing>)
    ensures |r| <= |wings|
    ensures forall w :: w in r ==> w in wings && Selected(w, selected)
    ensures selected.None? && search == "" ==> r == wings
  {
    if wings == [] then []
    else
      var w := wings[0];
      var rest := FilteredWings(wings[1..], selected, search);
      var listed := Selected(w, selected) && (search == "" || exists k :: 0 <= k < |w.rooms| && Matches(w.rooms[k], search));
      if listed then [w] + rest else rest
  }

  /**
   * With a search, a wing the selection lets through is listed exactly
   * when it would show at least one room; with no search, every such wing
   * is listed, even one without rooms.
   */
  lemma {:induction false} ListedWingsShowRooms(wings: seq<Definitions.Wing>, selected: Option<string>, search: string, w: Definitions.Wing)
    ensures w in FilteredWings(wings, selected, search) <==>
      w in wings && Selected(w, selected) && (search == "" || FilteredRooms(w.rooms, search) != [])
    decreases |wings|
  {
    if wings != [] {
      ListedWingsShowRooms(wings[1..], selected, search, w);
      assert wings == [wings[0]] + wings[1..];
      if search != "" {
        MatchingRoom(wings[0].rooms, search);
      }
    }
  }

  /** A non-empty search shows some room of a wing exactly when one of its rooms matches. */
  lemma MatchingRoom(rooms: seq<Definitions.RoomDefinition>, search: string)
    requires search != ""
    ensures FilteredRooms(rooms, search) != [] <==> exists k :: 0 <= k < |rooms| && Matches(rooms[k], search)
  {
    if FilteredRooms(rooms, search) != [] {
      var x := FilteredRooms(rooms, search)[0];
      assert x in rooms;
      var k :| 0 <= k < |rooms| && rooms[k] == x;
    }
    if exists k :: 0 <= k < |rooms| && Matches(rooms[k], search) {
      var k :| 0 <= k < |rooms| && Matches(rooms[k], search);
      assert rooms[k] in FilteredRooms(rooms, search);
    }
  }

  /** With a wing selected, no wing of another name is listed. */
  lemma OnlySelectedWingListed(wings: seq<Definitions.Wing>, name: string, search: string, w: Definitions.Wing)
    requires w in FilteredWings(wings, Some(name), search)
    ensures w.wing == name
  {
  }

  // ---------------------------------------------------------------------
  // Chip titles
  // ---------------------------------------------------------------------

  const Subtitle: string := " ("

  /** `wingShortName`: the text before the first " (", or the whole name when it has none. */
  function WingShortName(full: string): (r: string)
    ensures IsPrefix(r, full)
    ensures !Contains(r, Subtitle)
    ensures Contains(full, Subtitle) ==> IsAt(full, Subtitle, |r|)
    ensures !Contains(full, Subtitle) ==> r == full
  {
    FindFromContains(full, Subtitle);
    match FindFrom(full, Subtitle, 0)
    case None =>
      assert full[0..|full|] == full;
      full
    case Some(i) =>
      var r := full[..i];
      assert !Contains(r, Subtitle) by {
        forall j | 0 <= j <= |r|
          ensures !IsAt(r, Subtitle, j)
        {
          if IsAt(r, Subtitle, j) {
            assert full[j..j + |Subtitle|] == r[j..j + |Subtitle|];
            assert IsAt(full, Subtitle, j);
          }
        }
      }
      r
  }

  /** A name and a parenthesised subtitle give back the name alone. */
  lemma ShortNameDropsSubtitle(name: string, subtitle: string)
    requires !Contains(name, Subtitle)
    ensures WingShortName(name + Subtitle + subtitle) == name
  {
    var full := name + Subtitle + subtitle;
    assert IsAt(full, Subtitle, |name|) by {
      assert full[|name|..|name| + |Subtitle|] == Subtitle;
    }
    var r := WingShortName(full);
    if |r| + 1 < |name| {
      assert IsAt(name, Subtitle, |r|) by {
        assert name[|r|..|r| + |Subtitle|] == full[|r|..|r| + |Subtitle|];
      }
    }
    assert full[|name|] == ' ' && Subtitle[1] == '(';
    assert full[|r| + 1] == '(' by {
      assert full[|r|..|r| + |Subtitle|][1] == full[|r| + 1];
    }
    assert r == full[..|r|];
  }

  /** A short name is its own short name. */
  lemma ShortNameIdempotent(full: string)
    ensures WingShortName(WingShortName(full)) == WingShortName(full)
  {
  }

  // ---------------------------------------------------------------------
  // The screen
  // ---------------------------------------------------------------------

  class BlueprintScreen {
    /** `RoomLoader.shared`. */
    const loader: Definitions.RoomLoader
    var searchText: string
    var selectedWing: Option<string>

    constructor (loader: Definitions.RoomLoader)
      ensures this.loader == loader && searchText == "" && selectedWing.None?
    {
      this.loader := loader;
      searchText := "";
      selectedWing := None;
    }

    function Wings(): seq<Definitions.Wing>
      reads this, loader
    {
      FilteredWings(loader.wings, selectedWing, searchText)
    }

    /** A chip is highlighted when its wing is the selected one; "All" when none is. */
    predicate ChipSelected(name: Option<string>)
      reads this
    {
      selectedWing == name
    }

    /** The "All" chip: clears the selection and lists every wing the search allows. */
    method SelectAll()
      modifies this
      ensures selectedWing.None? && searchText == old(searchText)
      ensures searchText == "" ==> Wings() == loader.wings
    {
      selectedWing := None;
    }

    /** A wing's chip: selects that wing, so only wings of that name are listed. */
    method SelectWing(name: string)
      modifies this
      ensures selectedWing == Some(name) && searchText == old(searchText)
      ensures ChipSelected(Some(name)) && !ChipSelected(None)
      ensures forall w :: w in Wings() ==> w.wing == name
    {
      selectedWing := Some(name);
    }

    /** The search field. */
    method Search(text: string)
      modifies this
      ensures searchText == text && selectedWing == old(selectedWing)
    {
      searchText := text;
    }
  }
}
