/**
 * `RoomDetailView.swift`: the room screen's colour tables and section
 * visibility, and the add and edit sheets. Both sheets turn a
 * comma-separated text into the instance's inventory, and the edit sheet
 * shows the inventory joined with ", " to begin with.
 */
module RoomDetail {
  import opened Text
  import Instances
  import Definitions

  // ---------------------------------------------------------------------
  // Colours
  // ---------------------------------------------------------------------

  datatype Swatch = Blue | Purple | Orange | Teal | Green | Yellow | Red

  function SwatchName(c: Swatch): string {
    match c
    case Blue => "blue"
    case Purple => "purple"
    case Orange => "orange"
    case Teal => "teal"
    case Green => "green"
    case Yellow => "yellow"
    case Red => "red"
  }

  /** `dionysianColor`. */
  function DionysianColor(level: Definitions.EnergyLevel): Swatch {
    match level
    case LowEnergy => Blue
    case MediumEnergy => Purple
    case HighEnergy => Orange
    case MetaEnergy => Teal
  }

  /** `apollonianColor`. */
  function ApollonianColor(level: Definitions.EnergyLevel): Swatch {
    match level
    case LowEnergy => Green
    case MediumEnergy => Yellow
    case HighEnergy => Red
    case MetaEnergy => Teal
  }

  /**
   * Each axis gives every level a colour of its own. The two axes share
   * only teal, which both use for meta; the Dionysian colours are the
   * definition's energy colours.
   */
  lemma EnergyColors(l: Definitions.EnergyLevel, m: Definitions.EnergyLevel)
    ensures DionysianColor(l) == DionysianColor(m) <==> l == m
    ensures ApollonianColor(l) == ApollonianColor(m) <==> l == m
    ensures DionysianColor(l) == ApollonianColor(m) <==> l == Definitions.MetaEnergy && m == Definitions.MetaEnergy
    ensures SwatchName(DionysianColor(l)) == Definitions.EnergyColor(l)
  {
  }

  /** `frictionColor`. */
  function FrictionSwatch(f: Instances.FrictionLevel): Swatch {
    match f
    case Zero => Green
    case Low => Blue
    case Medium => Yellow
    case High => Red
  }

  /** The instance card's friction colour is the one `FrictionLevel.color` names. */
  lemma FrictionSwatchAgrees(f: Instances.FrictionLevel, g: Instances.FrictionLevel)
    ensures SwatchName(FrictionSwatch(f)) == Instances.FrictionColor(f)
    ensures FrictionSwatch(f) == FrictionSwatch(g) ==> f == g
  {
    Instances.FrictionColorsDistinct(f, g);
  }

  // ---------------------------------------------------------------------
  // Sections
  // ---------------------------------------------------------------------

  predicate ShowsEvocative(d: Definitions.RoomDefinition) {
    d.evocativeQuote.Some? || d.evocativeDescription.Some?
  }

  predicate ShowsConstraints(d: Definitions.RoomDefinition) {
    d.constraints.Some? && |d.constraints.value| > 0
  }

  predicate ShowsAltar(d: Definitions.RoomDefinition) {
    d.altar.Some? && |d.altar.value| > 0
  }

  /**
   * The sections appear only with something to show: a bare definition
   * shows none of them, and an empty list is hidden like a missing one.
   */
  lemma SectionsNeedData(number: string, name: string, hint: string, purpose: string, d: Definitions.RoomDefinition)
    ensures var bare := Definitions.NewRoomDefinition(number, name, hint, purpose);
      !ShowsEvocative(bare) && !ShowsConstraints(bare) && !ShowsAltar(bare)
    ensures d.constraints == Some([]) ==> !ShowsConstraints(d)
    ensures d.altar == Some([]) ==> !ShowsAltar(d)
    ensures ShowsConstraints(d) ==> exists c :: c in d.constraints.value
  {
    if ShowsConstraints(d) {
      assert d.constraints.value[0] in d.constraints.value;
    }
  }

  // ---------------------------------------------------------------------
  // Inventory text
  // ---------------------------------------------------------------------

  /** The text between commas, empty pieces included. */
  function Pieces(s: string): (p: seq<string>)
    ensures |p| >= 1
  {
    if s == [] then [""]
    else if s[0] == ',' then [""] + Pieces(s[1..])
    else
      var rest := Pieces(s[1..]);
      [[s[0]] + rest[0]] + rest[1..]
  }

  function NonEmpty(pieces: seq<string>): (r: seq<string>)
    ensures forall k :: 0 <= k < |r| ==> r[k] != "" && r[k] in pieces
  {
    if pieces == [] then []
    else (if pieces[0] == "" then [] else [pieces[0]]) + NonEmpty(pieces[1..])
  }

  function TrimAll(pieces: seq<string>): (r: seq<string>)
    ensures |r| == |pieces| && forall k :: 0 <= k < |r| ==> r[k] == Trim(pieces[k])
  {
    seq(|pieces|, k requires 0 <= k < |pieces| => Trim(pieces[k]))
  }

  /**
   * `inventory.split(separator: ",").map { $0.trimmingCharacters(in: .whitespaces) }`:
   * the non-empty pieces between commas, each trimmed of spaces and tabs.
   */
  function Inventory(text: string): (items: seq<string>)
    ensures forall k :: 0 <= k < |items| ==> IsTrimmed(items[k])
  {
    TrimAll(NonEmpty(Pieces(text)))
  }

  lemma {:induction false} PiecesHaveNoComma(s: string)
    ensures forall k :: 0 <= k < |Pieces(s)| ==> ',' !in Pieces(s)[k]
  {
    if s != [] {
      PiecesHaveNoComma(s[1..]);
    }
  }

  /** No item holds a comma, so the items are exactly what lay between the commas. */
  lemma InventoryHasNoComma(text: string)
    ensures forall k :: 0 <= k < |Inventory(text)| ==> ',' !in Inventory(text)[k]
  {
    var pieces := NonEmpty(Pieces(text));
    PiecesHaveNoComma(text);
    forall k | 0 <= k < |pieces|
      ensures ',' !in Inventory(text)[k]
    {
      assert pieces[k] in Pieces(text);
      TrimKeeps(pieces[k], ',');
    }
  }

  lemma TrimKeeps(s: string, c: char)
    requires c !in s
    ensures c !in Trim(s)
  {
    var a := SkipBlanks(s, 0);
    var b := TrailBlankEnd(s, |s|);
    if a <= b {
      assert forall k :: 0 <= k < b - a ==> s[a..b][k] == s[a + k];
    }
  }

  lemma PiecesPrefix(c: string, s: string)
    requires ',' !in c
    ensures Pieces(c + s) == [c + Pieces(s)[0]] + Pieces(s)[1..]
    decreases |c|
  {
    if c != [] {
      assert (c + s)[0] == c[0] && (c + s)[1..] == c[1..] + s;
      PiecesPrefix(c[1..], s);
      assert [c[0]] + (c[1..] + Pieces(s)[0]) == c + Pieces(s)[0];
    } else {
      assert c + s == s;
      assert c + Pieces(s)[0] == Pieces(s)[0];
    }
  }

  lemma PiecesComma(s: string)
    ensures Pieces("," + s) == [""] + Pieces(s)
  {
    assert ("," + s)[0] == ',' && ("," + s)[1..] == s;
  }

  lemma PiecesOfItem(x: string)
    requires ',' !in x
    ensures Pieces(x) == [x]
  {
    PiecesPrefix(x, "");
    assert x + "" == x && x + Pieces("")[0] == x;
  }

  /** A comma before the text adds only an empty piece, which is dropped. */
  lemma LeadingCommaDropped(s: string)
    ensures Inventory("," + s) == Inventory(s)
  {
    PiecesComma(s);
    assert NonEmpty([""] + Pieces(s)) == NonEmpty(Pieces(s)) by {
      assert ([""] + Pieces(s))[1..] == Pieces(s);
    }
  }

  lemma {:induction false} PiecesOfBlankMiddle(x: string, y: string)
    requires ',' !in x && ',' !in y
    ensures Pieces(x + ", ," + y) == [x, " ", y]
  {
    PiecesOfItem(y);
    PiecesComma(y);
    PiecesPrefix(" ", "," + y);
    assert " " + Pieces("," + y)[0] == " ";
    PiecesComma(" ," + y);
    assert "," + (" ," + y) == ", ," + y;
    PiecesPrefix(x, ", ," + y);
    assert x + Pieces(", ," + y)[0] == x;
    assert x + ", ," + y == x + (", ," + y);
  }

  lemma TrimSpace()
    ensures Trim(" ") == ""
  {
    assert SkipBlanks(" ", 0) == 1;
  }

  /**
   * A piece of only a space is not empty, so it is kept and then trimmed to
   * an empty item: "a, ,b" gives three items, the middle one empty.
   */
  lemma {:induction false} BlankPieceKept(x: string, y: string)
    requires CleanItem(x) && CleanItem(y)
    ensures Inventory(x + ", ," + y) == [x, "", y]
  {
    PiecesOfBlankMiddle(x, y);
    NonEmptyKeepsAll([x, " ", y]);
    TrimSpace();
  }

  /** Every item after the first, with the space the separator leaves before it. */
  function Spaced(items: seq<string>): (r: seq<string>)
    ensures |r| == |items| && forall k :: 0 <= k < |r| ==> r[k] == " " + items[k]
  {
    seq(|items|, k requires 0 <= k < |items| => " " + items[k])
  }

  /** Joining comma-free items with ", " and cutting at the commas gives the items back, each but the first after a space. */
  lemma {:induction false} PiecesOfJoin(items: seq<string>)
    requires |items| >= 1
    requires forall k :: 0 <= k < |items| ==> ',' !in items[k]
    ensures Pieces(Join(items, ", ")) == [items[0]] + Spaced(items[1..])
    decreases |items|
  {
    if |items| >= 2 {
      var tail := Join(items[1..], ", ");
      PiecesOfJoin(items[1..]);
      assert Pieces(tail) == [items[1]] + Spaced(items[2..]) by {
        assert items[1..][0] == items[1] && items[1..][1..] == items[2..];
      }
      var x := "," + (" " + tail);
      assert ", " + tail == x;
      assert Join(items, ", ") == items[0] + x;
      PiecesPrefix(items[0], x);
      PiecesComma(" " + tail);
      assert Pieces(x)[0] == "" && Pieces(x)[1..] == Pieces(" " + tail);
      assert items[0] + Pieces(x)[0] == items[0];
      PiecesPrefix(" ", tail);
      assert Pieces(" " + tail) == [" " + items[1]] + Spaced(items[2..]);
      assert Spaced(items[1..]) == [" " + items[1]] + Spaced(items[2..]);
    } else {
      PiecesPrefix(items[0], "");
      assert items[0] + "" == items[0];
      assert Pieces("") == [""];
      assert Spaced(items[1..]) == [];
    }
  }

  lemma NonEmptyKeepsAll(pieces: seq<string>)
    requires forall k :: 0 <= k < |pieces| ==> pieces[k] != ""
    ensures NonEmpty(pieces) == pieces
  {
  }

  lemma TrimSpaced(x: string)
    requires x != "" && IsTrimmed(x)
    ensures Trim(" " + x) == x
  {
    var s := " " + x;
    assert SkipBlanks(s, 0) == 1 by {
      assert SkipBlanks(s, 0) == SkipBlanks(s, 1);
      assert s[1] == x[0];
    }
    assert TrailBlankEnd(s, |s|) == |s| by {
      assert s[|s| - 1] == x[|x| - 1];
    }
    assert s[1..|s|] == x;
  }

  /** An item that survives being joined and read back: non-empty, without a comma, with no blank at either end. */
  predicate CleanItem(x: string) {
    x != "" && ',' !in x && IsTrimmed(x)
  }

  /**
   * The edit sheet's round trip: the inventory shown joined with ", " is
   * read back unchanged when every item is non-empty, holds no comma and
   * has no leading or trailing spaces.
   */
  lemma {:induction false} InventoryRoundTrip(items: seq<string>)
    requires forall k :: 0 <= k < |items| ==> CleanItem(items[k])
    ensures Inventory(Join(items, ", ")) == items
  {
    if items == [] {
      assert Pieces("") == [""];
    } else {
      JoinedItemsReadBack(items);
    }
  }

  lemma {:induction false} JoinedItemsReadBack(items: seq<string>)
    requires |items| >= 1
    requires forall k :: 0 <= k < |items| ==> CleanItem(items[k])
    ensures Inventory(Join(items, ", ")) == items
  {
    var text := Join(items, ", ");
    var pieces := [items[0]] + Spaced(items[1..]);
    assert Pieces(text) == pieces by {
      PiecesOfJoin(items);
    }
    assert Inventory(text) == TrimAll(pieces) by {
      InventoryOfPieces(text, pieces);
    }
    assert TrimAll(pieces) == items by {
      TrimAllSpaced(items);
    }
    assert Inventory(text) == items;
  }

  lemma {:induction false} InventoryOfPieces(text: string, pieces: seq<string>)
    requires Pieces(text) == pieces
    requires forall k :: 0 <= k < |pieces| ==> pieces[k] != ""
    ensures Inventory(text) == TrimAll(pieces)
  {
    NonEmptyKeepsAll(pieces);
  }

  lemma {:induction false} TrimAllSpaced(items: seq<string>)
    requires |items| >= 1
    requires forall k :: 0 <= k < |items| ==> items[k] != "" && IsTrimmed(items[k])
    ensures TrimAll([items[0]] + Spaced(items[1..])) == items
  {
    var pieces := [items[0]] + Spaced(items[1..]);
    forall k | 0 <= k < |items|
      ensures TrimAll(pieces)[k] == items[k]
    {
      if k > 0 {
        assert pieces[k] == " " + items[k];
        TrimSpaced(items[k]);
      }
    }
  }

  // ---------------------------------------------------------------------
  // Sheets
  // ---------------------------------------------------------------------

  /** The add sheet's button is enabled with a variant name and no save in progress. */
  predicate CanAdd(variantName: string, isLoading: bool) {
    variantName != "" && !isLoading
  }

  datatype NewInstanceRequest = NewInstanceRequest(definitionId: string, variantName: string, inventory: seq<string>)

  /** `addInstance`: the definition's id, the name as typed and the inventory read from the text. */
  function AddInstance(definition: Definitions.RoomDefinition, variantName: string, inventoryText: string): (r: NewInstanceRequest)
    ensures r.definitionId == definition.number && r.variantName == variantName
    ensures r.inventory == Inventory(inventoryText)
  {
    NewInstanceRequest(definition.Id(), variantName, Inventory(inventoryText))
  }

  /** The edit sheet's fields on appearing: the variant name and the inventory joined with ", ". */
  function EditFields(instance: Instances.RoomInstance): (string, string) {
    (instance.variantName, Join(instance.requiredInventory, ", "))
  }

  /** `save`: a copy of the instance with the edited name and the inventory read from the text. */
  function SaveEdit(instance: Instances.RoomInstance, variantName: string, inventoryText: string): (r: Instances.RoomInstance)
    ensures r.variantName == variantName && r.requiredInventory == Inventory(inventoryText)
    ensures r == instance.(variantName := r.variantName, requiredInventory := r.requiredInventory)
  {
    instance.(variantName := variantName, requiredInventory := Inventory(inventoryText))
  }

  /** Saving the edit sheet untouched gives back the same instance when its inventory items are clean. */
  lemma SaveUntouched(instance: Instances.RoomInstance)
    requires forall k :: 0 <= k < |instance.requiredInventory| ==> CleanItem(instance.requiredInventory[k])
    ensures SaveEdit(instance, EditFields(instance).0, EditFields(instance).1) == instance
  {
    InventoryRoundTrip(instance.requiredInventory);
  }
}
