/**
 * `InstanceDetailView.swift`: the track-length label, the button for the
 * next track, and the music-context editor. The editor prefills from the
 * room, edits three chip lists and builds the context for `generateTrack`.
 *
 * The Swift declarations of `MusicContext` and `SceneSetting` are not part
 * of this model. The editor's context is the one the `generateTrack`
 * callable receives (`CloudFunctions.MusicContext`), with the scene
 * setting as its raw value.
 */
module InstanceDetail {
  import opened Text
  import Instances
  import Definitions
  import Music
  import Sessions
  import CloudFunctions

  // ---------------------------------------------------------------------
  // Track rows and the next-track button
  // ---------------------------------------------------------------------

  /** `TrackRow.formatDuration`: `String(format: "%d:%02d", seconds / 60, seconds % 60)`. */
  function FormatDuration(seconds: int): string {
    IntToString(TruncDiv(seconds, 60)) + ":" + Pad2(TruncMod(seconds, 60))
  }

  /**
   * For a non-negative length the label is the whole minutes, a colon and
   * two digits of seconds, and reading the two numbers back gives the
   * length again. It is the player's label for the same whole number of
   * seconds.
   */
  lemma FormatDurationReadsBack(seconds: int)
    requires seconds >= 0
    ensures |Pad2(seconds % 60)| == 2
    ensures FormatDuration(seconds) == NatToString(seconds / 60) + ":" + Pad2(seconds % 60)
    ensures ParseDigits(NatToString(seconds / 60)) * 60 + ParseDigits(Pad2(seconds % 60)) == seconds
    ensures FormatDuration(seconds) == Music.FormatTime(seconds as real)
  {
    Pad2Value(seconds % 60);
    ParseNatToString(seconds / 60);
    assert Sessions.Truncate(seconds as real) == seconds;
  }

  /**
   * The "Generate Track n" button: shown for a playlist with at least one
   * and fewer than eight tracks, and it asks for the track after the last.
   */
  function NextTrack(playlist: Option<seq<Instances.RoomTrack>>): (n: Option<int>)
    ensures n.Some? <==> playlist.Some? && 0 < |playlist.value| < 8
    ensures n.Some? ==> n.value == |playlist.value| + 1
  {
    if playlist.Some? && |playlist.value| > 0 && |playlist.value| < 8 then Some(|playlist.value| + 1) else None
  }

  /** The next track is always one of the album's eight, with its own narrative phase. */
  lemma NextTrackHasPhase(playlist: Option<seq<Instances.RoomTrack>>)
    requires NextTrack(playlist).Some?
    ensures var n := NextTrack(playlist).value;
      2 <= n <= 8 && CloudFunctions.Phase(n) == CloudFunctions.Phases[n - 1] && CloudFunctions.Phase(n) != "opening"
  {
  }

  // ---------------------------------------------------------------------
  // Prefill tables
  // ---------------------------------------------------------------------

  /** The instrument and somatic defaults, named by the wing each one is written for. */
  datatype Palette = FoundationPalette | AdministrationPalette | MachineShopPalette | WildernessPalette
                   | ForumPalette | ObservatoryPalette | DefaultPalette

  /** The `switch (d, a)`, its cases tried in order. */
  function PaletteFor(d: Definitions.EnergyLevel, a: Definitions.EnergyLevel): Palette {
    if d == Definitions.LowEnergy && a == Definitions.LowEnergy then FoundationPalette
    else if d == Definitions.LowEnergy && a == Definitions.HighEnergy then AdministrationPalette
    else if d == Definitions.HighEnergy && a == Definitions.HighEnergy then MachineShopPalette
    else if d == Definitions.HighEnergy && a == Definitions.LowEnergy then WildernessPalette
    else if d == Definitions.MediumEnergy || a == Definitions.MediumEnergy then ForumPalette
    else if d == Definitions.MetaEnergy || a == Definitions.MetaEnergy then ObservatoryPalette
    else DefaultPalette
  }

  function Instruments(p: Palette): seq<string> {
    match p
    case FoundationPalette => ["ambient pads", "gentle piano"]
    case AdministrationPalette => ["minimal piano", "soft strings"]
    case MachineShopPalette => ["synth", "electronic beats"]
    case WildernessPalette => ["organic textures", "world percussion"]
    case ForumPalette => ["acoustic guitar", "warm bass"]
    case ObservatoryPalette => ["ethereal synths", "glass bells"]
    case DefaultPalette => ["ambient pads"]
  }

  function Somatic(p: Palette): seq<string> {
    match p
    case FoundationPalette => ["breath", "heartbeat"]
    case AdministrationPalette => ["focus", "clarity"]
    case MachineShopPalette => ["energy", "flow"]
    case WildernessPalette => ["movement", "exploration"]
    case ForumPalette => ["connection", "presence"]
    case ObservatoryPalette => ["awareness", "stillness"]
    case DefaultPalette => ["presence"]
  }

  /**
   * Which palette each pair of levels gets. The four low/high pairs have
   * their own; any medium level wins over meta; meta is used only when
   * neither level is medium; and the default arm is never reached.
   */
  lemma PaletteCases(d: Definitions.EnergyLevel, a: Definitions.EnergyLevel)
    ensures PaletteFor(d, a) != DefaultPalette
    ensures PaletteFor(d, a) == ForumPalette <==> d == Definitions.MediumEnergy || a == Definitions.MediumEnergy
    ensures PaletteFor(d, a) == ObservatoryPalette <==>
      (d == Definitions.MetaEnergy || a == Definitions.MetaEnergy) && d != Definitions.MediumEnergy && a != Definitions.MediumEnergy
    ensures PaletteFor(d, a) == FoundationPalette <==> d == Definitions.LowEnergy && a == Definitions.LowEnergy
    ensures PaletteFor(d, a) == MachineShopPalette <==> d == Definitions.HighEnergy && a == Definitions.HighEnergy
  {
  }

  /** The prefilled instruments and somatic elements are never empty, so the prompt always carries both clauses. */
  lemma PalettePrompt(p: Palette, context: CloudFunctions.MusicContext, trackNumber: int, roomName: string)
    requires context.instruments == Instruments(p) && context.somaticElements == Somatic(p)
    ensures var parts := CloudFunctions.MusicPromptParts(context, trackNumber, roomName);
      CloudFunctions.HasClause(parts, "Instruments: ") && CloudFunctions.HasClause(parts, "Evoking sensations of: ")
  {
    CloudFunctions.ClauseWhen(context, trackNumber, roomName, 2);
    CloudFunctions.ClauseWhen(context, trackNumber, roomName, 4);
  }

  /** The prefilled mood: from the room's purpose, by the first marker it contains. */
  function MoodFor(purpose: string): (m: string)
    ensures m == "serene" <==> Contains(purpose, "Rest")
    ensures m == "focused" <==> !Contains(purpose, "Rest") && Contains(purpose, "Work")
    ensures m == "contemplative" <==> !Contains(purpose, "Rest") && !Contains(purpose, "Work")
  {
    if Contains(purpose, "Rest") then "serene" else if Contains(purpose, "Work") then "focused" else "contemplative"
  }

  /** Whether the instance's Dionysian energy reads as high, ignoring case. */
  predicate HighEnergy(physics: Instances.RoomPhysics) {
    Contains(ToLower(physics.dionysianEnergy), "high")
  }

  /** `removeAll { $0 == item }`. */
  function RemoveAll(s: seq<string>, item: string): (r: seq<string>)
    ensures item !in r
    ensures forall x :: x != item ==> (x in r <==> x in s)
  {
    if s == [] then []
    else
      assert s == [s[0]] + s[1..];
      (if s[0] == item then [] else [s[0]]) + RemoveAll(s[1..], item)
  }

  /** Adding a chip and then removing it leaves none of that text, and the other chips as they were. */
  lemma RemoveAfterAdd(s: seq<string>, item: string)
    ensures RemoveAll(s + [item], item) == RemoveAll(s, item)
  {
    RemoveAllAppend(s, [item], item);
  }

  lemma {:induction false} RemoveAllAppend(a: seq<string>, b: seq<string>, item: string)
    ensures RemoveAll(a + b, item) == RemoveAll(a, item) + RemoveAll(b, item)
    decreases |a|
  {
    if a != [] {
      assert (a + b)[0] == a[0] && (a + b)[1..] == a[1..] + b;
      RemoveAllAppend(a[1..], b, item);
    } else {
      assert a + b == b;
    }
  }

  datatype ChipList = InstrumentChips | SomaticChips | FoundSoundChips

  class MusicContextEditor {
    const definition: Definitions.RoomDefinition
    const instance: Instances.RoomInstance

    var sceneSetting: string
    var narrativeArc: string
    var somaticElements: seq<string>
    var locationInspiration: string
    var instruments: seq<string>
    var mood: string
    var tempo: string
    var foundSounds: seq<string>
    var newSomatic: string
    var newInstrument: string
    var newFoundSound: string

    /** The editor's initial state, before `onAppear` prefills it. */
    constructor (definition: Definitions.RoomDefinition, instance: Instances.RoomInstance)
      ensures this.definition == definition && this.instance == instance
      ensures sceneSetting == "solo" && narrativeArc == "" && locationInspiration == "" && mood == ""
      ensures tempo == "moderate" && instruments == [] && somaticElements == [] && foundSounds == []
      ensures newSomatic == "" && newInstrument == "" && newFoundSound == ""
    {
      this.definition := definition;
      this.instance := instance;
      sceneSetting := "solo";
      narrativeArc := "";
      somaticElements := [];
      locationInspiration := "";
      instruments := [];
      mood := "";
      tempo := "moderate";
      foundSounds := [];
      newSomatic := "";
      newInstrument := "";
      newFoundSound := "";
    }

    /** The list a chip editor edits. */
    function Chips(list: ChipList): seq<string>
      reads this
    {
      match list
      case InstrumentChips => instruments
      case SomaticChips => somaticElements
      case FoundSoundChips => foundSounds
    }

    /** The text field beside a chip editor. */
    function Typed(list: ChipList): string
      reads this
    {
      match list
      case InstrumentChips => newInstrument
      case SomaticChips => newSomatic
      case FoundSoundChips => newFoundSound
    }

    /**
     * `prefillFromRoom`. Location and tempo follow the instance's
     * Dionysian energy, and are left alone without physics. The mood
     * follows the room's purpose, and the instrument and somatic lists the
     * room's two energy levels.
     */
    method PrefillFromRoom()
      modifies this
      ensures instance.physics.Some? ==>
        locationInspiration == (if HighEnergy(instance.physics.value) then "volcano, storm" else "calm lake, garden") &&
        tempo == (if HighEnergy(instance.physics.value) then "upbeat" else "slow")
      ensures instance.physics.None? ==> locationInspiration == old(locationInspiration) && tempo == old(tempo)
      ensures mood == MoodFor(definition.purpose) && mood != ""
      ensures var p := PaletteFor(Definitions.DionysianLevel(definition), Definitions.ApollonianLevel(definition));
        instruments == Instruments(p) && somaticElements == Somatic(p)
      ensures sceneSetting == old(sceneSetting) && narrativeArc == old(narrativeArc) && foundSounds == old(foundSounds)
      ensures newSomatic == old(newSomatic) && newInstrument == old(newInstrument) && newFoundSound == old(newFoundSound)
    {
      if instance.physics.Some? {
        var high := HighEnergy(instance.physics.value);
        locationInspiration := if high then "volcano, storm" else "calm lake, garden";
        tempo := if high then "upbeat" else "slow";
      }
      mood := MoodFor(definition.purpose);
      var p := PaletteFor(Definitions.DionysianLevel(definition), Definitions.ApollonianLevel(definition));
      instruments := Instruments(p);
      somaticElements := Somatic(p);
    }

    /** The add button of a chip editor: non-empty text is appended and the field cleared; empty text changes nothing. */
    method AddChip(list: ChipList)
      modifies this
      ensures old(Typed(list)) != "" ==> Chips(list) == old(Chips(list)) + [old(Typed(list))] && Typed(list) == ""
      ensures old(Typed(list)) == "" ==> Chips(list) == old(Chips(list)) && Typed(list) == old(Typed(list))
      ensures forall other :: other != list ==> Chips(other) == old(Chips(other)) && Typed(other) == old(Typed(other))
      ensures sceneSetting == old(sceneSetting) && narrativeArc == old(narrativeArc)
      ensures locationInspiration == old(locationInspiration) && mood == old(mood) && tempo == old(tempo)
    {
      match list
      case InstrumentChips =>
        if newInstrument != "" {
          instruments := instruments + [newInstrument];
          newInstrument := "";
        }
      case SomaticChips =>
        if newSomatic != "" {
          somaticElements := somaticElements + [newSomatic];
          newSomatic := "";
        }
      case FoundSoundChips =>
        if newFoundSound != "" {
          foundSounds := foundSounds + [newFoundSound];
          newFoundSound := "";
        }
    }

    /** A chip's remove button deletes every chip with that text. */
    method RemoveChip(list: ChipList, item: string)
      modifies this
      ensures Chips(list) == RemoveAll(old(Chips(list)), item)
      ensures forall other :: other != list ==> Chips(other) == old(Chips(other))
      ensures forall any :: Typed(any) == old(Typed(any))
      ensures sceneSetting == old(sceneSetting) && narrativeArc == old(narrativeArc)
      ensures locationInspiration == old(locationInspiration) && mood == old(mood) && tempo == old(tempo)
    {
      match list
      case InstrumentChips => instruments := RemoveAll(instruments, item);
      case SomaticChips => somaticElements := RemoveAll(somaticElements, item);
      case FoundSoundChips => foundSounds := RemoveAll(foundSounds, item);
    }

    /** The Generate button is enabled only with a location and a mood. */
    predicate CanGenerate()
      reads this
    {
      locationInspiration != "" && mood != ""
    }

    /** The context the Generate button hands on: the fields as edited, an empty arc as `nil`. */
    method Generate() returns (context: CloudFunctions.MusicContext)
      requires CanGenerate()
      ensures context.sceneSetting == sceneSetting && context.narrativeArc == NonEmptyOrNone(narrativeArc)
      ensures context.somaticElements == somaticElements && context.locationInspiration == locationInspiration
      ensures context.instruments == instruments && context.mood == mood && context.tempo == tempo
      ensures context.foundSounds == foundSounds
      ensures context.narrativeArc.None? <==> narrativeArc == ""
    {
      context := CloudFunctions.MusicContext(sceneSetting, NonEmptyOrNone(narrativeArc), somaticElements,
        locationInspiration, instruments, mood, tempo, foundSounds);
    }
  }

  /**
   * After the prefill, an instance with physics can generate at once; one
   * without keeps the Generate button disabled until a location is typed.
   */
  method PrefillEnablesGenerate(definition: Definitions.RoomDefinition, instance: Instances.RoomInstance)
    returns (enabled: bool)
    ensures enabled <==> instance.physics.Some?
  {
    var editor := new MusicContextEditor(definition, instance);
    editor.PrefillFromRoom();
    enabled := editor.CanGenerate();
  }
}
