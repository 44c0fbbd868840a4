/**
 * `functions/src/index.ts`: the Cloud Functions that guard every call with
 * the whitelist, seed and create room instances in Firestore, and build the
 * music prompt and playlist for `generateTrack`.
 *
 * Firestore is modelled as the `Backend` class: the `config/access`
 * document and, per user, the documents of `users/{uid}/rooms` in the order
 * they were added. A document's auto-generated id is modelled by its
 * position in that sequence. Gemini, ElevenLabs and Cloud Storage are
 * inputs: the album concept read back, the outcome of the ElevenLabs call,
 * the playlist already stored and the bucket name.
 */
module CloudFunctions {
  import opened Text
  import Instances

  // ---------------------------------------------------------------------
  // Authorization
  // ---------------------------------------------------------------------

  /** The code of an `HttpsError` and, where the source fixes it, its message. */
  datatype HttpsError =
    | Unauthenticated(message: string)
    | PermissionDenied(message: string)
    | InvalidArgument(message: string)
    | Internal

  /** The `config/access` document: missing, or present with an `allowedUsers` field that may be absent. */
  datatype AccessConfig = NoConfig | Config(allowedUsers: Option<seq<string>>)

  /** `checkWhitelist`: a missing document denies everyone; a missing list reads as empty. */
  function CheckWhitelist(config: AccessConfig, uid: string): (allowed: bool)
    ensures allowed ==> config.Config?
    ensures config.Config? && config.allowedUsers.Some? ==> (allowed <==> uid in config.allowedUsers.value)
    ensures config.Config? && config.allowedUsers.None? ==> !allowed
  {
    match config
    case NoConfig => false
    case Config(users) => uid in users.GetOr([])
  }

  /**
   * `requireAuthorization`: `auth` is the caller's uid, `None` for an
   * unauthenticated request.
   */
  function RequireAuthorization(auth: Option<string>, config: AccessConfig): (r: Result<string, HttpsError>)
    ensures r.Ok? <==> auth.Some? && CheckWhitelist(config, auth.value)
    ensures r.Ok? ==> r.value == auth.value
    ensures auth.None? ==> r == Err(Unauthenticated("Must be authenticated"))
    ensures auth.Some? && !r.Ok? ==> r == Err(PermissionDenied("User not authorized"))
  {
    if auth.None? then Err(Unauthenticated("Must be authenticated"))
    else if !CheckWhitelist(config, auth.value) then Err(PermissionDenied("User not authorized"))
    else Ok(auth.value)
  }

  /** Without the config document nobody is let through, whoever asks. */
  lemma MissingConfigDeniesAll(auth: Option<string>)
    ensures !RequireAuthorization(auth, NoConfig).Ok?
  {
  }

  /** JavaScript truthiness of an optional string field: present and not empty. */
  predicate Truthy(s: Option<string>) {
    s.Some? && s.value != ""
  }

  // ---------------------------------------------------------------------
  // Room documents
  // ---------------------------------------------------------------------

  datatype Physics = Physics(dionysianEnergy: string, apollonianStructure: string, inputLogic: string, outputLogic: string)

  /** One entry of `ROOM_DATA`, with its `instance_state` flattened. */
  datatype SeedRoom = SeedRoom(
    id: string,
    name: string,
    wing: string,
    physics: Physics,
    evocativeWhy: string,
    constraints: seq<string>,
    variantName: string,
    familiarity: real,
    friction: string,
    inventory: seq<string>,
    liturgy: seq<(string, string)>)

  /**
   * A document of `users/{uid}/rooms`. A seeded document also carries the
   * physics, evocative why, constraints, liturgy, wing and name of the
   * entry it was made from (`template`); the server timestamps are not
   * modelled.
   */
  datatype RoomDoc = RoomDoc(
    definitionId: string,
    variantName: string,
    familiarity: real,
    health: real,
    friction: string,
    inventory: seq<string>,
    isActive: bool,
    template: Option<SeedRoom>)

  const RoomData: seq<SeedRoom> := [
    SeedRoom("001", "The Crypt", "I. The Foundation (Restoration)",
      Physics("Low", "Low", "Null", "Reboot"),
      "To reset the nervous system, one must simulate death.",
      ["Total Darkness", "Zero Audio Input", "Horizontal Posture"],
      "Bedroom (Night Mode)", 0.9, "Low", ["Sleep Mask", "Earplugs", "Heavy Blanket"],
      [("entry", "Remove all technology."), ("step_1", "Lie down."),
       ("step_2", "Count backward from 100."), ("exit", "Open eyes only when the alarm triggers.")]),
    SeedRoom("002", "The Bath", "I. The Foundation (Restoration)",
      Physics("Low", "Low", "Liquid", "Dissolution"),
      "Water is the ancient solvent for anxiety.",
      ["Nakedness", "Submersion", "No Electronics"],
      "Master Bathroom", 0.8, "Medium", ["Hot Water", "Epsom Salts", "Towel"],
      [("entry", "Start the water."), ("step_1", "Submerge ears."), ("exit", "Drain the water.")]),
    SeedRoom("010", "The Swamp", "I. The Foundation (Restoration)",
      Physics("Low", "Low", "Infinite Scroll", "Decay"),
      "Even the soul needs to rot sometimes.",
      ["Time-Boxed (Max 45 mins)", "Horizontal Posture"],
      "The Grey Couch", 0.95, "Zero", ["Phone", "Snack"],
      [("entry", "Set timer for 45 mins."), ("step_1", "Scroll mindlessly."),
       ("exit", "When timer rings, stand up immediately.")]),
    SeedRoom("013", "The Morning Chapel", "II. The Administration (Governance)",
      Physics("Low", "High", "Filter (High Pass)", "Vector Alignment"),
      "Sovereignty before Service. Hardening the 'I' before it encounters the 'They'.",
      ["The Faraday Wall (No Phone)", "The Time-Lock (10-30 mins)", "The Silence"],
      "Balcony Chair", 0.2, "High", ["Notebook", "Pen", "Black Coffee"],
      [("entry", "Wake. Pour liquid. Walk past phone."), ("step_1", "The Dump (Write static)."),
       ("step_2", "The Vector (Set objective)."), ("exit", "Close book. Stand up.")]),
    SeedRoom("025", "The Cockpit", "III. The Machine Shop (Production)",
      Physics("High", "High", "Data Stream", "Velocity"),
      "God Mode. The fusion of human intent and machine speed.",
      ["Single Screen Focus", "No Context Switching", "Ergonomic Lock-in"],
      "Standing Desk Home", 0.8, "Medium", ["Mechanical Keyboard", "IDE", "ANC Headphones"],
      [("entry", "Put on headphones."), ("step_1", "Open single terminal window."),
       ("step_2", "Type first line."), ("exit", "Commit code. Remove headphones.")]),
    SeedRoom("026", "The Forge", "III. The Machine Shop (Production)",
      Physics("High", "High", "Resistance", "Strength"),
      "The mind cannot process all stress. Some must be burned out through the muscles.",
      ["Heavy Resistance", "Repetition", "Pain Tolerance"],
      "Local Gym", 0.4, "High", ["Gym Kit", "Water Bottle"],
      [("entry", "Change into kit."), ("step_1", "Lift heavy things."), ("exit", "Shower.")]),
    SeedRoom("037", "The Intersection", "IV. The Wilderness (Exploration)",
      Physics("High", "Low", "Stochastic", "Pattern Recognition"),
      "The cure for stagnation is randomness. Stand where the world collides.",
      ["No Headphones (Audio ON)", "Open Eyes", "Movement"],
      "Times Square / Main St", 0.6, "Medium", ["Walking Shoes", "Weather Coat"],
      [("entry", "Walk out the front door."), ("step_1", "Drift without destination."),
       ("exit", "Return when inspired or exhausted.")]),
    SeedRoom("049", "The River", "V. The Forum (Exchange)",
      Physics("Medium", "Medium", "White Noise", "Flow"),
      "To be alone together. The visual noise of others scrubs the static from your own mind.",
      ["Anonymity", "Ambient Noise", "Caffeine Access"],
      "Corner Starbucks", 0.9, "Low", ["Laptop", "Headphones", "Coffee Money"],
      [("entry", "Order drink. Find corner seat."), ("step_1", "Put on headphones."),
       ("exit", "Leave when cup is empty.")]),
    SeedRoom("061", "The Bridge", "VI. The Observatory (Metacognition)",
      Physics("Meta", "Meta", "Dashboard", "Command"),
      "The room where you choose the room. The Helmsman's station.",
      ["High Visibility", "Data Rich", "Detached Emotion"],
      "The Castle App", 0.5, "Medium", ["This App", "Calendar"],
      [("entry", "Open the map."), ("step_1", "Locate current coordinates."),
       ("step_2", "Plot next jump."), ("exit", "Execute transition.")])
  ]

  /** The document `seedRooms` writes for one entry: full health, inactive, the entry's instance state. */
  function SeedDoc(room: SeedRoom): RoomDoc {
    RoomDoc(room.id, room.variantName, room.familiarity, 1.0, room.friction, room.inventory, false, Some(room))
  }

  function SeedDocs(rooms: seq<SeedRoom>): seq<RoomDoc> {
    seq(|rooms|, k requires 0 <= k < |rooms| => SeedDoc(rooms[k]))
  }

  /** The document `createRoomInstance` writes: unfamiliar, full health, medium friction, inactive. */
  function NewDoc(definitionId: string, variantName: string, inventory: seq<string>): RoomDoc {
    RoomDoc(definitionId, variantName, 0.0, 1.0, "Medium", inventory, false, None)
  }

  /**
   * A document the app can read back: its friction is a `FrictionLevel` raw
   * value and its scores lie in [0, 1]. (The seeded definition ids are room
   * numbers by `SeedIdsAreRoomNumbers`; `createRoomInstance` stores whatever
   * id it is given.)
   */
  predicate ReadsBack(d: RoomDoc) {
    Instances.FrictionFromRaw(d.friction).Some? && 0.0 <= d.familiarity <= 1.0 && 0.0 <= d.health <= 1.0
  }

  lemma SeedDocsReadBack()
    ensures forall k :: 0 <= k < |RoomData| ==> ReadsBack(SeedDoc(RoomData[k]))
  {
    Instances.FrictionRawRoundTrip(Instances.Zero, "Zero");
    forall k | 0 <= k < |RoomData|
      ensures ReadsBack(SeedDoc(RoomData[k]))
    {
      assert RoomData[k].friction in {"Zero", "Low", "Medium", "High"};
    }
  }

  /** The seed table names nine distinct rooms, each by a three-digit number. */
  lemma SeedIdsAreRoomNumbers()
    ensures |RoomData| == 9
    ensures forall k :: 0 <= k < |RoomData| ==> |RoomData[k].id| == 3 && AllDigits(RoomData[k].id)
    ensures forall j, k :: 0 <= j < k < |RoomData| ==> RoomData[j].id != RoomData[k].id
  {
    var ids := SeedIds(RoomData);
    assert ids == ["001", "002", "010", "013", "025", "026", "037", "049", "061"];
    RoomNumbersDistinct(ids);
  }

  /** The ids of a seed table, in order. */
  function SeedIds(data: seq<SeedRoom>): (r: seq<string>)
    ensures |r| == |data| && forall k :: 0 <= k < |data| ==> r[k] == data[k].id
  {
    seq(|data|, k requires 0 <= k < |data| => data[k].id)
  }

  lemma RoomNumbersDistinct(ids: seq<string>)
    requires ids == ["001", "002", "010", "013", "025", "026", "037", "049", "061"]
    ensures forall k :: 0 <= k < |ids| ==> |ids[k]| == 3 && AllDigits(ids[k])
    ensures forall j, k :: 0 <= j < k < |ids| ==> ids[j] != ids[k]
  {
  }

  lemma NewDocReadsBack(definitionId: string, variantName: string, inventory: seq<string>)
    ensures ReadsBack(NewDoc(definitionId, variantName, inventory))
    ensures Instances.FrictionFromRaw(NewDoc(definitionId, variantName, inventory).friction) == Some(Instances.Medium)
  {
    Instances.FrictionRawRoundTrip(Instances.Medium, "Medium");
  }

  datatype Created = Created(instanceId: nat, message: string)

  class Backend {
    var access: AccessConfig
    var rooms: map<string, seq<RoomDoc>>

    /** The documents of `users/{uid}/rooms`, oldest first. */
    function RoomsOf(uid: string): seq<RoomDoc>
      reads this
    {
      if uid in rooms then rooms[uid] else []
    }

    constructor (access: AccessConfig)
      ensures this.access == access && rooms == map[]
    {
      this.access := access;
      rooms := map[];
    }

    /** `userRoomsRef.add(data)`: appends a document and returns its id. */
    method Add(uid: string, doc: RoomDoc) returns (id: nat)
      modifies this
      ensures id == |old(RoomsOf(uid))|
      ensures rooms == old(rooms)[uid := old(RoomsOf(uid)) + [doc]]
      ensures access == old(access)
    {
      id := |RoomsOf(uid)|;
      rooms := rooms[uid := RoomsOf(uid) + [doc]];
    }

    /**
     * `seedRooms`: after authorization, one new document per `ROOM_DATA`
     * entry, in table order, and a message that reports how many were added.
     */
    method SeedRooms(auth: Option<string>) returns (r: Result<string, HttpsError>)
      modifies this
      ensures access == old(access)
      ensures !RequireAuthorization(auth, access).Ok? ==> r.Err? && r.error == RequireAuthorization(auth, access).error && rooms == old(rooms)
      ensures RequireAuthorization(auth, access).Ok? ==> (
        var uid := auth.value;
        rooms == old(rooms)[uid := old(RoomsOf(uid)) + SeedDocs(RoomData)] &&
        r == Ok("Seeded " + NatToString(|RoomData|) + " room instances for user " + uid))
    {
      var authorized := RequireAuthorization(auth, access);
      if !authorized.Ok? {
        return Err(authorized.error);
      }
      var uid := authorized.value;
      var seededCount := AddAll(uid, RoomData);
      r := Ok("Seeded " + NatToString(seededCount) + " room instances for user " + uid);
    }

    /** The `for (const room of ROOM_DATA)` loop: one `add` per entry, counted. */
    method AddAll(uid: string, data: seq<SeedRoom>) returns (seededCount: nat)
      modifies this
      ensures seededCount == |data|
      ensures |data| > 0 ==> rooms == old(rooms)[uid := old(RoomsOf(uid)) + SeedDocs(data)]
      ensures |data| == 0 ==> rooms == old(rooms)
      ensures access == old(access)
    {
      seededCount := 0;
      var i := 0;
      while i < |data|
        invariant 0 <= i <= |data| && seededCount == i
        invariant access == old(access)
        invariant i == 0 ==> rooms == old(rooms)
        invariant i > 0 ==> rooms == old(rooms)[uid := old(RoomsOf(uid)) + SeedDocs(data[..i])]
      {
        ghost var before := RoomsOf(uid);
        assert before == old(RoomsOf(uid)) + SeedDocs(data[..i]);
        var _ := Add(uid, SeedDoc(data[i]));
        assert SeedDocs(data[..i + 1]) == SeedDocs(data[..i]) + [SeedDoc(data[i])];
        assert before + [SeedDoc(data[i])] == old(RoomsOf(uid)) + SeedDocs(data[..i + 1]);
        seededCount := seededCount + 1;
        i := i + 1;
      }
      assert data[..i] == data;
    }

    /**
     * `createRoomInstance`: after authorization, both the definition id and
     * the variant name must be non-empty; the inventory defaults to empty.
     */
    method CreateRoomInstance(auth: Option<string>, definitionId: Option<string>, variantName: Option<string>,
                              requiredInventory: Option<seq<string>>) returns (r: Result<Created, HttpsError>)
      modifies this
      ensures access == old(access)
      ensures !RequireAuthorization(auth, access).Ok? ==> r.Err? && r.error == RequireAuthorization(auth, access).error && rooms == old(rooms)
      ensures RequireAuthorization(auth, access).Ok? && !(Truthy(definitionId) && Truthy(variantName)) ==>
        r == Err(InvalidArgument("definitionId and variantName are required")) && rooms == old(rooms)
      ensures RequireAuthorization(auth, access).Ok? && Truthy(definitionId) && Truthy(variantName) ==> (
        var uid := auth.value;
        var doc := NewDoc(definitionId.value, variantName.value, requiredInventory.GetOr([]));
        rooms == old(rooms)[uid := old(RoomsOf(uid)) + [doc]] &&
        r == Ok(Created(|old(RoomsOf(uid))|,
          "Created instance \"" + variantName.value + "\" for room " + definitionId.value)))
    {
      var authorized := RequireAuthorization(auth, access);
      if !authorized.Ok? {
        return Err(authorized.error);
      }
      if !Truthy(definitionId) || !Truthy(variantName) {
        return Err(InvalidArgument("definitionId and variantName are required"));
      }
      var id := Add(authorized.value, NewDoc(definitionId.value, variantName.value, requiredInventory.GetOr([])));
      r := Ok(Created(id, "Created instance \"" + variantName.value + "\" for room " + definitionId.value));
    }
  }

  // ---------------------------------------------------------------------
  // `buildMusicPrompt`
  // ---------------------------------------------------------------------

  datatype MusicContext = MusicContext(
    sceneSetting: string,
    narrativeArc: Option<string>,
    somaticElements: seq<string>,
    locationInspiration: string,
    instruments: seq<string>,
    mood: string,
    tempo: string,
    foundSounds: seq<string>)

  const Phases: seq<string> := ["opening", "rising", "building", "peak", "reflection", "descent", "resolution", "closing"]

  function Min(a: int, b: int): int {
    if a < b then a else b
  }

  /**
   * `phases[Math.min(trackNumber - 1, phases.length - 1)]`: every track from
   * the eighth on gets the last phase. Below track 1 the index is negative,
   * JavaScript reads `undefined` and the template prints that word.
   */
  function Phase(trackNumber: int): (p: string)
    ensures 1 <= trackNumber <= |Phases| ==> p == Phases[trackNumber - 1]
    ensures trackNumber >= |Phases| ==> p == "closing"
    ensures trackNumber < 1 ==> p == "undefined"
  {
    var i := Min(trackNumber - 1, |Phases| - 1);
    if i < 0 then "undefined" else Phases[i]
  }

  function TrackLine(trackNumber: int): string {
    "Track " + (IntToString(trackNumber) + " of 8. Duration: 4 minutes. Seamless, loopable transitions.")
  }

  /** How each part of the prompt opens, in push order. */
  const Heads: seq<string> := ["Ambient music for ", "Inspired by: ", "Instruments: ", "Mood: ", "Evoking sensations of: ",
                               "Subtly integrate found sounds: ", "Narrative phase: ", "Track "]

  /** What follows each head. */
  function Bodies(context: MusicContext, trackNumber: int, roomName: string): (b: seq<string>)
    ensures |b| == |Heads|
  {
    [roomName + ", a " + context.sceneSetting + " experience.",
     context.locationInspiration + ".",
     Join(context.instruments, ", ") + ".",
     context.mood + ". Tempo: " + context.tempo + ".",
     Join(context.somaticElements, ", ") + ".",
     Join(context.foundSounds, ", ") + ".",
     Phase(trackNumber) + " (" + context.narrativeArc.GetOr("") + ").",
     IntToString(trackNumber) + " of 8. Duration: 4 minutes. Seamless, loopable transitions."]
  }

  /**
   * Whether the part opening with `Heads[k]` is pushed: the three list
   * clauses when their list is non-empty, the narrative clause when the arc
   * is a non-empty string, every other part always.
   */
  predicate Pushed(context: MusicContext, k: int) {
    && (k == 2 ==> |context.instruments| > 0)
    && (k == 4 ==> |context.somaticElements| > 0)
    && (k == 5 ==> |context.foundSounds| > 0)
    && (k == 6 ==> Truthy(context.narrativeArc))
  }

  function Piece(context: MusicContext, bodies: seq<string>, k: nat): seq<string>
    requires k < |Heads| && |bodies| == |Heads|
  {
    if Pushed(context, k) then [Heads[k] + bodies[k]] else []
  }

  /** The `parts` array of `buildMusicPrompt`, in push order. */
  function MusicPromptParts(context: MusicContext, trackNumber: int, roomName: string): seq<string> {
    var b := Bodies(context, trackNumber, roomName);
    Piece(context, b, 0) + Piece(context, b, 1) + Piece(context, b, 2) + Piece(context, b, 3)
    + Piece(context, b, 4) + Piece(context, b, 5) + Piece(context, b, 6) + Piece(context, b, 7)
  }

  /** `buildMusicPrompt`: the parts joined by single spaces. */
  function BuildMusicPrompt(context: MusicContext, trackNumber: int, roomName: string): string {
    Join(MusicPromptParts(context, trackNumber, roomName), " ")
  }

  /** Some part of the prompt opens with `head`. */
  predicate HasClause(parts: seq<string>, head: string) {
    exists p :: p in parts && IsPrefix(head, p)
  }

  lemma JoinStartsWithFirst(parts: seq<string>, sep: string)
    requires |parts| >= 1
    ensures IsPrefix(parts[0], Join(parts, sep))
  {
    if |parts| > 1 {
      assert Join(parts, sep) == parts[0] + (sep + Join(parts[1..], sep));
    }
  }

  lemma {:induction false} JoinEndsWithLast(parts: seq<string>, sep: string)
    requires |parts| >= 1
    ensures IsSuffix(parts[|parts| - 1], Join(parts, sep))
    decreases |parts|
  {
    if |parts| > 1 {
      JoinEndsWithLast(parts[1..], sep);
      var rest := Join(parts[1..], sep);
      assert Join(parts, sep) == (parts[0] + sep) + rest;
    }
  }

  /** Every part of the prompt is a pushed head followed by its body. */
  lemma PartsArePushed(context: MusicContext, trackNumber: int, roomName: string, p: string)
    requires p in MusicPromptParts(context, trackNumber, roomName)
    ensures exists k :: 0 <= k < |Heads| && Pushed(context, k) && p == Heads[k] + Bodies(context, trackNumber, roomName)[k]
  {
    var b := Bodies(context, trackNumber, roomName);
    var k: nat := 0;
    while k < |Heads|
      invariant k <= |Heads|
      invariant forall j :: 0 <= j < k ==> p !in Piece(context, b, j)
    {
      if p in Piece(context, b, k) {
        return;
      }
      k := k + 1;
    }
  }

  lemma PrefixChar(head: string, p: string, d: nat)
    requires IsPrefix(head, p) && d < |head|
    ensures p[d] == head[d]
  {
    assert p[..|head|][d] == p[d];
  }

  /** No string opens with two different heads. */
  lemma HeadsExclusive(p: string, i: nat, j: nat)
    requires i < |Heads| && j < |Heads| && i != j
    ensures !(IsPrefix(Heads[i], p) && IsPrefix(Heads[j], p))
  {
    var d := if i in {1, 2} && j in {1, 2} then 3 else 0;
    if IsPrefix(Heads[i], p) && IsPrefix(Heads[j], p) {
      PrefixChar(Heads[i], p, d);
      PrefixChar(Heads[j], p, d);
    }
  }

  /** A part opening with `Heads[k]` is in the prompt exactly when that part is pushed. */
  lemma ClauseWhen(context: MusicContext, trackNumber: int, roomName: string, k: nat)
    requires k < |Heads|
    ensures HasClause(MusicPromptParts(context, trackNumber, roomName), Heads[k]) <==> Pushed(context, k)
  {
    var parts := MusicPromptParts(context, trackNumber, roomName);
    var b := Bodies(context, trackNumber, roomName);
    if Pushed(context, k) {
      var part := Heads[k] + b[k];
      assert part in Piece(context, b, k);
      assert part in parts;
      assert IsPrefix(Heads[k], part);
    }
    forall p | p in parts && IsPrefix(Heads[k], p)
      ensures Pushed(context, k)
    {
      PartsArePushed(context, trackNumber, roomName, p);
      var h :| 0 <= h < |Heads| && Pushed(context, h) && p == Heads[h] + b[h];
      assert IsPrefix(Heads[h], p);
      if h != k {
        HeadsExclusive(p, h, k);
      }
    }
  }

  /**
   * Each list clause, and the narrative clause, is in the prompt exactly
   * when its list is non-empty (the arc a non-empty string); the four
   * parts that are always pushed make up the rest of the count.
   */
  lemma OptionalClauses(context: MusicContext, trackNumber: int, roomName: string)
    ensures |MusicPromptParts(context, trackNumber, roomName)| == 4 + (if |context.instruments| > 0 then 1 else 0)
      + (if |context.somaticElements| > 0 then 1 else 0) + (if |context.foundSounds| > 0 then 1 else 0)
      + (if Truthy(context.narrativeArc) then 1 else 0)
    ensures HasClause(MusicPromptParts(context, trackNumber, roomName), "Instruments: ") <==> |context.instruments| > 0
    ensures HasClause(MusicPromptParts(context, trackNumber, roomName), "Evoking sensations of: ") <==> |context.somaticElements| > 0
    ensures HasClause(MusicPromptParts(context, trackNumber, roomName), "Subtly integrate found sounds: ") <==> |context.foundSounds| > 0
    ensures HasClause(MusicPromptParts(context, trackNumber, roomName), "Narrative phase: ") <==> Truthy(context.narrativeArc)
  {
    ClauseWhen(context, trackNumber, roomName, 2);
    ClauseWhen(context, trackNumber, roomName, 4);
    ClauseWhen(context, trackNumber, roomName, 5);
    ClauseWhen(context, trackNumber, roomName, 6);
  }

  /** The prompt opens with the room and closes with the track line. */
  lemma MusicPromptEnds(context: MusicContext, trackNumber: int, roomName: string)
    ensures IsPrefix("Ambient music for " + roomName + ", a ", BuildMusicPrompt(context, trackNumber, roomName))
    ensures IsSuffix(TrackLine(trackNumber), BuildMusicPrompt(context, trackNumber, roomName))
  {
    var parts := MusicPromptParts(context, trackNumber, roomName);
    var opening := "Ambient music for " + roomName + ", a ";
    PromptPartsEnds(context, trackNumber, roomName, opening);
    JoinStartsWithFirst(parts, " ");
    JoinEndsWithLast(parts, " ");
    PrefixOfPrefix(opening, context.sceneSetting + " experience.", BuildMusicPrompt(context, trackNumber, roomName));
  }

  /** The room part always leads the parts and the track part always closes them. */
  lemma PromptPartsEnds(context: MusicContext, trackNumber: int, roomName: string, opening: string)
    requires opening == "Ambient music for " + roomName + ", a "
    ensures var parts := MusicPromptParts(context, trackNumber, roomName);
      |parts| >= 2 && parts[0] == opening + (context.sceneSetting + " experience.") &&
      parts[|parts| - 1] == TrackLine(trackNumber)
  {
    var b := Bodies(context, trackNumber, roomName);
    assert Piece(context, b, 0) == [Heads[0] + b[0]];
    assert Piece(context, b, 7) == [Heads[7] + b[7]];
    Regroup("Ambient music for ", roomName, ", a ", context.sceneSetting, " experience.");
  }

  lemma Regroup(a: string, b: string, c: string, d: string, e: string)
    ensures a + (b + c + d + e) == (a + b + c) + (d + e)
  {
  }

  // ---------------------------------------------------------------------
  // `generateTrack`: prompt and title of the track
  // ---------------------------------------------------------------------

  /** One track of the stored album concept. */
  datatype TrackConcept = TrackConcept(trackNumber: int, title: string, prompt: string)

  /** `k` is the first track of `tracks` with number `n`. */
  predicate FirstWith(tracks: seq<TrackConcept>, n: int, k: int) {
    0 <= k < |tracks| && tracks[k].trackNumber == n && forall j :: 0 <= j < k ==> tracks[j].trackNumber != n
  }

  /** `tracks.find(t => t.trackNumber === n)`. */
  function FindConcept(tracks: seq<TrackConcept>, n: int): (r: Option<TrackConcept>)
    ensures r.None? <==> forall k :: 0 <= k < |tracks| ==> tracks[k].trackNumber != n
    ensures r.Some? ==> exists k :: FirstWith(tracks, n, k) && tracks[k] == r.value
  {
    if |tracks| == 0 then None
    else if tracks[0].trackNumber == n then (assert FirstWith(tracks, n, 0); Some(tracks[0]))
    else match FindConcept(tracks[1..], n)
      case None => None
      case Some(c) =>
        var k :| FirstWith(tracks[1..], n, k) && tracks[1..][k] == c;
        assert FirstWith(tracks, n, k + 1);
        Some(c)
  }

  /** The title given to a track the album concept does not describe. */
  function FallbackTitle(roomName: string, trackNumber: int): string {
    roomName + " - Track " + IntToString(trackNumber)
  }

  /**
   * The prompt and title `generateTrack` uses: those of the album concept's
   * track with this number when the concept lists one, otherwise the built
   * prompt and the fallback title.
   */
  function TrackPlan(album: Option<seq<TrackConcept>>, context: MusicContext, trackNumber: int, roomName: string): (plan: (string, string))
    ensures album.Some? && FindConcept(album.value, trackNumber).Some? ==>
      plan == (FindConcept(album.value, trackNumber).value.prompt, FindConcept(album.value, trackNumber).value.title)
    ensures album.None? || FindConcept(album.value, trackNumber).None? ==>
      plan == (BuildMusicPrompt(context, trackNumber, roomName), FallbackTitle(roomName, trackNumber))
  {
    if album.Some? then
      match FindConcept(album.value, trackNumber)
      case Some(concept) => (concept.prompt, concept.title)
      case None => (BuildMusicPrompt(context, trackNumber, roomName), FallbackTitle(roomName, trackNumber))
    else (BuildMusicPrompt(context, trackNumber, roomName), FallbackTitle(roomName, trackNumber))
  }

  // ---------------------------------------------------------------------
  // `parseInt` and the track number read back from a title
  // ---------------------------------------------------------------------

  /** The white space `parseInt` skips: ECMAScript's WhiteSpace and LineTerminator characters. */
  predicate IsJsSpace(c: char) {
    c in {'\t', '\n', '\U{000B}', '\U{000C}', '\r', ' ', '\U{00A0}', '\U{1680}', '\U{2028}', '\U{2029}',
          '\U{202F}', '\U{205F}', '\U{3000}', '\U{FEFF}'}
    || '\U{2000}' <= c <= '\U{200A}'
  }

  function SkipJsSpace(s: string, i: nat): (k: nat)
    requires i <= |s|
    ensures i <= k <= |s| && (k == |s| || !IsJsSpace(s[k]))
    decreases |s| - i
  {
    if i < |s| && IsJsSpace(s[i]) then SkipJsSpace(s, i + 1) else i
  }

  predicate IsHexDigit(c: char) {
    IsDigit(c) || 'a' <= c <= 'f' || 'A' <= c <= 'F'
  }

  function HexValue(c: char): nat
    requires IsHexDigit(c)
  {
    if IsDigit(c) then DigitValue(c) else if 'a' <= c <= 'f' then c as int - 'a' as int + 10 else c as int - 'A' as int + 10
  }

  /** The end of the run of characters satisfying `digit` that starts at `i`. */
  function RunEnd(s: string, i: nat, hex: bool): (k: nat)
    requires i <= |s|
    ensures i <= k <= |s|
    ensures forall j :: i <= j < k ==> (if hex then IsHexDigit(s[j]) else IsDigit(s[j]))
    ensures k == |s| || !(if hex then IsHexDigit(s[k]) else IsDigit(s[k]))
    decreases |s| - i
  {
    if i < |s| && (if hex then IsHexDigit(s[i]) else IsDigit(s[i])) then RunEnd(s, i + 1, hex) else i
  }

  function HexDigitsValue(s: string): nat
    requires forall j :: 0 <= j < |s| ==> IsHexDigit(s[j])
  {
    if s == [] then 0 else HexDigitsValue(s[..|s| - 1]) * 16 + HexValue(s[|s| - 1])
  }

  /**
   * `parseInt(s)` with no radix: leading white space, an optional sign, then
   * hexadecimal digits after "0x"/"0X" or decimal digits otherwise, as many
   * as there are. `None` is NaN: no digit where one is needed.
   */
  function ParseInt(s: string): (r: Option<int>)
  {
    var i := SkipJsSpace(s, 0);
    var sign := if i < |s| && s[i] == '-' then -1 else 1;
    var j := if i < |s| && (s[i] == '-' || s[i] == '+') then i + 1 else i;
    if j + 1 < |s| && s[j] == '0' && (s[j + 1] == 'x' || s[j + 1] == 'X') then
      var end := RunEnd(s, j + 2, true);
      if end == j + 2 then None else Some(sign * HexDigitsValue(s[j + 2..end]))
    else
      var end := RunEnd(s, j, false);
      if end == j then None else Some(sign * ParseDigits(s[j..end]))
  }

  lemma ParseIntOfDigits(s: string)
    requires |s| > 0 && AllDigits(s) && (|s| == 1 || s[0] != '0')
    ensures ParseInt(s) == Some(ParseDigits(s))
  {
    assert SkipJsSpace(s, 0) == 0;
    RunEndAt(s, 0, |s|);
    assert s[0..|s|] == s;
  }

  lemma ParseIntOfNegated(s: string)
    requires |s| > 0 && AllDigits(s) && (|s| == 1 || s[0] != '0')
    ensures ParseInt("-" + s) == Some(-(ParseDigits(s) as int))
  {
    var u := "-" + s;
    assert u[0] == '-' && u[1..] == s;
    ParseIntOfMinus(u, s);
  }

  lemma ParseIntOfMinus(u: string, s: string)
    requires |s| > 0 && AllDigits(s) && (|s| == 1 || s[0] != '0')
    requires |u| == |s| + 1 && u[0] == '-' && u[1..] == s
    ensures ParseInt(u) == Some(-(ParseDigits(s) as int))
  {
    assert SkipJsSpace(u, 0) == 0;
    forall j | 1 <= j < |u|
      ensures IsDigit(u[j])
    {
      assert u[j] == s[j - 1];
    }
    RunEndAt(u, 1, |u|);
    assert u[1..|u|] == s;
  }

  lemma RunEndAt(s: string, i: nat, k: nat)
    requires i <= k <= |s|
    requires forall j :: i <= j < k ==> IsDigit(s[j])
    requires k == |s| || !IsDigit(s[k])
    ensures RunEnd(s, i, false) == k
    decreases k - i
  {
    if i < k {
      RunEndAt(s, i + 1, k);
    }
  }

  /** `parseInt` reads back what `String(n)` wrote, for every integer. */
  lemma ParseIntRendered(n: int)
    ensures ParseInt(IntToString(n)) == Some(n)
  {
    var m: nat := if n < 0 then -n else n;
    var digits := NatToString(m);
    NoLeadingZero(m);
    ParseNatToString(m);
    if n < 0 {
      ParseIntOfNegated(digits);
    } else {
      ParseIntOfDigits(digits);
    }
  }

  /** Decimal rendering writes no leading zero. */
  lemma {:induction false} NoLeadingZero(n: nat)
    ensures |NatToString(n)| == 1 || NatToString(n)[0] != '0'
    decreases n
  {
    if n >= 10 {
      NoLeadingZero(n / 10);
      assert NatToString(n)[0] == NatToString(n / 10)[0];
    }
  }

  const Marker: string := "Track "

  /** `title.split("Track ")[1]`: what lies between the first and the second "Track ", if there is a first. */
  function SecondPiece(title: string): (r: Option<string>)
    ensures r.None? <==> FindFrom(title, Marker, 0).None?
  {
    match FindFrom(title, Marker, 0)
    case None => None
    case Some(i) =>
      var start := i + |Marker|;
      match FindFrom(title, Marker, start)
      case None => Some(title[start..])
      case Some(j) => Some(title[start..j])
  }

  /** `parseInt(a.title.split("Track ")[1]) || 0`: the sort key of a playlist entry. */
  function TrackKey(title: string): int {
    match SecondPiece(title)
    case None => 0
    case Some(piece) => ParseInt(piece).GetOr(0)
  }

  /** The fallback title is read back as its track number, unless the room name itself contains the marker. */
  lemma FallbackTitleKey(roomName: string, trackNumber: int)
    requires !Contains(roomName + " - ", Marker)
    ensures TrackKey(FallbackTitle(roomName, trackNumber)) == trackNumber
    ensures IsSuffix(Marker + IntToString(trackNumber), FallbackTitle(roomName, trackNumber))
  {
    FallbackTitleParts(roomName, trackNumber);
    FallbackPiece(roomName + " - ", trackNumber);
    SuffixOfConcat(roomName + " - ", Marker + IntToString(trackNumber));
  }

  lemma FallbackTitleParts(roomName: string, trackNumber: int)
    ensures FallbackTitle(roomName, trackNumber) == (roomName + " - ") + Marker + IntToString(trackNumber)
    ensures FallbackTitle(roomName, trackNumber) == (roomName + " - ") + (Marker + IntToString(trackNumber))
  {
  }

  lemma FallbackPiece(head: string, trackNumber: int)
    requires !Contains(head, Marker)
    ensures TrackKey(head + Marker + IntToString(trackNumber)) == trackNumber
  {
    RenderedHasNoMarker(trackNumber);
    SecondPieceAfterFirst(head, IntToString(trackNumber));
    ParseIntRendered(trackNumber);
  }

  /** A rendered integer holds digits and at most a minus sign, so never "Track ". */
  lemma RenderedHasNoMarker(n: int)
    ensures !Contains(IntToString(n), Marker)
  {
    var r := IntToString(n);
    forall k | 0 <= k < |r|
      ensures r[k] != Marker[0]
    {
      if n < 0 && k == 0 {
        assert r[0] == '-';
      } else {
        var d := NatToString(if n < 0 then -n else n);
        assert r[k] == d[if n < 0 then k - 1 else k];
      }
    }
    MissingFirstChar(r, Marker);
  }

  /** With a single marker, the piece after it is the rest of the title. */
  lemma SecondPieceAfterFirst(head: string, tail: string)
    requires !Contains(head, Marker) && !Contains(tail, Marker)
    ensures SecondPiece(head + Marker + tail) == Some(tail)
  {
    var title := head + Marker + tail;
    var at := |head|;
    assert IsAt(title, Marker, at) by { ThreeParts(head, Marker, tail); }
    assert forall d :: 0 < d < |Marker| ==> Marker[d] != Marker[0];
    NoMatchBefore(head, Marker, tail);
    FindFromFirst(title, Marker, 0, at);
    var start := at + |Marker|;
    assert title[start..] == tail;
    NoMatchAfter(head, Marker, tail);
    FindFromNone(title, Marker, start);
  }

  // ---------------------------------------------------------------------
  // `generateTrack`: the playlist update
  // ---------------------------------------------------------------------

  /** A playlist entry as `generateTrack` stores it. */
  datatype PlaylistEntry = PlaylistEntry(url: string, title: string, durationSeconds: int, prompt: string, isDownloaded: bool)

  function Key(e: PlaylistEntry): int {
    TrackKey(e.title)
  }

  /** The title ends in "Track <n>", which is how the filter recognises track `n`. */
  predicate IsTrack(e: PlaylistEntry, n: int) {
    IsSuffix(Marker + IntToString(n), e.title)
  }

  /** `s.filter(keep)`. */
  function Filter(keep: PlaylistEntry -> bool, s: seq<PlaylistEntry>): (r: seq<PlaylistEntry>)
    ensures forall e :: e in r <==> e in s && keep(e)
    ensures |r| <= |s|
  {
    if s == [] then [] else (if keep(s[0]) then [s[0]] else []) + Filter(keep, s[1..])
  }

  /** `existing.filter(t => !t.title.endsWith(`Track ${n}`))`. */
  function Removed(existing: seq<PlaylistEntry>, n: int): seq<PlaylistEntry> {
    Filter(e => !IsTrack(e, n), existing)
  }

  predicate SortedBy(key: PlaylistEntry -> int, s: seq<PlaylistEntry>) {
    forall i, j :: 0 <= i < j < |s| ==> key(s[i]) <= key(s[j])
  }

  /** Puts `e` into `s` after every leading entry whose key is not larger. */
  function Insert(key: PlaylistEntry -> int, e: PlaylistEntry, s: seq<PlaylistEntry>): (r: seq<PlaylistEntry>)
    ensures multiset(r) == multiset(s) + multiset{e}
    ensures |r| == |s| + 1
    decreases |s|
  {
    if s == [] then [e]
    else if key(e) < key(s[0]) then [e] + s
    else
      assert s == [s[0]] + s[1..];
      [s[0]] + Insert(key, e, s[1..])
  }

  lemma {:induction false} InsertSorted(key: PlaylistEntry -> int, e: PlaylistEntry, s: seq<PlaylistEntry>)
    requires SortedBy(key, s)
    ensures SortedBy(key, Insert(key, e, s))
    decreases |s|
  {
    if s != [] && key(e) >= key(s[0]) {
      InsertSorted(key, e, s[1..]);
      var rest := Insert(key, e, s[1..]);
      forall x | x in rest
        ensures key(s[0]) <= key(x)
      {
        assert x in multiset(rest);
        assert x == e || x in multiset(s[1..]);
      }
    }
  }

  /**
   * A stable insertion sort by `key`: each entry, taken from the front, is
   * put after the entries already placed whose key is not larger.
   */
  function SortBy(key: PlaylistEntry -> int, s: seq<PlaylistEntry>): (r: seq<PlaylistEntry>)
    ensures multiset(r) == multiset(s)
    ensures |r| == |s|
    decreases |s|
  {
    if s == [] then []
    else
      assert s == s[..|s| - 1] + [s[|s| - 1]];
      Insert(key, s[|s| - 1], SortBy(key, s[..|s| - 1]))
  }

  lemma {:induction false} SortBySorted(key: PlaylistEntry -> int, s: seq<PlaylistEntry>)
    ensures SortedBy(key, SortBy(key, s))
    decreases |s|
  {
    if s != [] {
      SortBySorted(key, s[..|s| - 1]);
      InsertSorted(key, s[|s| - 1], SortBy(key, s[..|s| - 1]));
    }
  }

  /** The entries of `s` with key `k`, in order. */
  function WithKey(key: PlaylistEntry -> int, s: seq<PlaylistEntry>, k: int): seq<PlaylistEntry> {
    if s == [] then [] else (if key(s[0]) == k then [s[0]] else []) + WithKey(key, s[1..], k)
  }

  lemma {:induction false} WithKeyAppend(key: PlaylistEntry -> int, a: seq<PlaylistEntry>, b: seq<PlaylistEntry>, k: int)
    ensures WithKey(key, a + b, k) == WithKey(key, a, k) + WithKey(key, b, k)
    decreases |a|
  {
    if a == [] {
      assert a + b == b;
    } else {
      var ab := a + b;
      var head := if key(a[0]) == k then [a[0]] else [];
      assert ab[0] == a[0] && ab[1..] == a[1..] + b;
      WithKeyAppend(key, a[1..], b, k);
      calc {
        WithKey(key, ab, k);
        head + WithKey(key, a[1..] + b, k);
        head + (WithKey(key, a[1..], k) + WithKey(key, b, k));
        (head + WithKey(key, a[1..], k)) + WithKey(key, b, k);
      }
    }
  }

  lemma {:induction false} NoneWithKey(key: PlaylistEntry -> int, s: seq<PlaylistEntry>, k: int)
    requires forall i :: 0 <= i < |s| ==> key(s[i]) > k
    ensures WithKey(key, s, k) == []
    decreases |s|
  {
    if s != [] {
      NoneWithKey(key, s[1..], k);
    }
  }

  lemma {:induction false} InsertWithKey(key: PlaylistEntry -> int, e: PlaylistEntry, s: seq<PlaylistEntry>, k: int)
    requires SortedBy(key, s)
    ensures WithKey(key, Insert(key, e, s), k) == WithKey(key, s, k) + (if key(e) == k then [e] else [])
    decreases |s|
  {
    var tail := if key(e) == k then [e] else [];
    if s == [] {
      assert Insert(key, e, s) == [e] + [];
      WithKeyCons(key, e, [], k);
      assert WithKey(key, s, k) == [];
    } else if key(e) < key(s[0]) {
      assert Insert(key, e, s) == [e] + s;
      WithKeyCons(key, e, s, k);
      if key(e) == k {
        NoneWithKey(key, s, k);
        assert WithKey(key, s, k) + tail == [e];
      } else {
        assert WithKey(key, s, k) + tail == WithKey(key, s, k);
      }
    } else {
      var rest := Insert(key, e, s[1..]);
      var head := if key(s[0]) == k then [s[0]] else [];
      assert SortedBy(key, s[1..]);
      InsertWithKey(key, e, s[1..], k);
      assert Insert(key, e, s) == [s[0]] + rest;
      WithKeyCons(key, s[0], rest, k);
      assert WithKey(key, s, k) == head + WithKey(key, s[1..], k);
      Regrouped(head, WithKey(key, s[1..], k), tail);
    }
  }

  lemma Regrouped<T>(a: seq<T>, b: seq<T>, c: seq<T>)
    ensures a + (b + c) == (a + b) + c
  {
  }

  lemma WithKeyCons(key: PlaylistEntry -> int, x: PlaylistEntry, t: seq<PlaylistEntry>, k: int)
    ensures WithKey(key, [x] + t, k) == (if key(x) == k then [x] else []) + WithKey(key, t, k)
  {
    assert ([x] + t)[1..] == t;
  }

  /** The sort is stable: for every key, the entries with that key keep their order. */
  lemma {:induction false} SortIsStable(key: PlaylistEntry -> int, s: seq<PlaylistEntry>, k: int)
    ensures WithKey(key, SortBy(key, s), k) == WithKey(key, s, k)
    decreases |s|
  {
    if s != [] {
      var init := s[..|s| - 1];
      var last := s[|s| - 1];
      var sorted := SortBy(key, init);
      var single := if key(last) == k then [last] else [];
      assert WithKey(key, [last], k) == single by {
        assert [last][1..] == [];
      }
      calc {
        WithKey(key, SortBy(key, s), k);
        WithKey(key, Insert(key, last, sorted), k);
        { SortBySorted(key, init); InsertWithKey(key, last, sorted, k); }
        WithKey(key, sorted, k) + single;
        { SortIsStable(key, init, k); }
        WithKey(key, init, k) + single;
        { WithKeyAppend(key, init, [last], k); }
        WithKey(key, init + [last], k);
        { assert s == init + [last]; }
        WithKey(key, s, k);
      }
    }
  }

  /** Sorting a playlist already in order leaves it as it is. */
  lemma {:induction false} SortKeepsSorted(key: PlaylistEntry -> int, s: seq<PlaylistEntry>)
    requires SortedBy(key, s)
    ensures SortBy(key, s) == s
    decreases |s|
  {
    if s != [] {
      var init, last := s[..|s| - 1], s[|s| - 1];
      assert s == init + [last];
      assert SortBy(key, s) == Insert(key, last, SortBy(key, init));
      SortedSplit(key, init, last);
      SortKeepsSorted(key, init);
      InsertLast(key, last, init);
    }
  }

  lemma SortedSplit(key: PlaylistEntry -> int, init: seq<PlaylistEntry>, last: PlaylistEntry)
    requires SortedBy(key, init + [last])
    ensures SortedBy(key, init)
    ensures forall i :: 0 <= i < |init| ==> key(init[i]) <= key(last)
  {
    var s := init + [last];
    forall i | 0 <= i < |init|
      ensures key(init[i]) <= key(last)
    {
      assert s[i] == init[i] && s[|init|] == last;
    }
    forall i, j | 0 <= i < j < |init|
      ensures key(init[i]) <= key(init[j])
    {
      assert s[i] == init[i] && s[j] == init[j];
    }
  }

  lemma {:induction false} InsertLast(key: PlaylistEntry -> int, e: PlaylistEntry, s: seq<PlaylistEntry>)
    requires forall i :: 0 <= i < |s| ==> key(s[i]) <= key(e)
    ensures Insert(key, e, s) == s + [e]
    decreases |s|
  {
    if s != [] {
      InsertLast(key, e, s[1..]);
      assert s == [s[0]] + s[1..];
    }
  }

  /** `updatedPlaylist.sort(...)` by the number read from the title; the comparator is `aNum - bNum`. */
  function SortByTrack(s: seq<PlaylistEntry>): seq<PlaylistEntry> {
    SortBy(Key, s)
  }

  /** The playlist `generateTrack` stores: without the entries of this track, plus the new one, sorted. */
  function UpdatePlaylist(existing: seq<PlaylistEntry>, track: PlaylistEntry, n: int): seq<PlaylistEntry> {
    SortByTrack(Removed(existing, n) + [track])
  }

  /**
   * After the update the new track is in the playlist, every other entry
   * that was not this track's is kept, nothing else is added, the playlist
   * is in track order, and no entry but the new one ends in "Track <n>".
   */
  lemma PlaylistUpdated(existing: seq<PlaylistEntry>, track: PlaylistEntry, n: int)
    ensures SortedBy(Key, UpdatePlaylist(existing, track, n))
    ensures multiset(UpdatePlaylist(existing, track, n)) == multiset(Removed(existing, n)) + multiset{track}
    ensures track in UpdatePlaylist(existing, track, n)
    ensures forall e :: e in UpdatePlaylist(existing, track, n) && IsTrack(e, n) ==> e == track
    ensures forall e :: e in existing && !IsTrack(e, n) ==> e in UpdatePlaylist(existing, track, n)
    ensures |UpdatePlaylist(existing, track, n)| <= |existing| + 1
  {
    var kept := Removed(existing, n);
    SortBySorted(Key, kept + [track]);
    UpdateMembers(existing, track, n);
    forall e | e in existing && !IsTrack(e, n)
      ensures e in kept
    {
      assert (x => !IsTrack(x, n))(e);
    }
  }

  lemma UpdateMembers(existing: seq<PlaylistEntry>, track: PlaylistEntry, n: int)
    ensures var r := UpdatePlaylist(existing, track, n);
      forall e :: e in r <==> e == track || e in Removed(existing, n)
  {
    var kept := Removed(existing, n);
    var r := UpdatePlaylist(existing, track, n);
    assert multiset(r) == multiset(kept + [track]);
    forall e
      ensures e in r <==> e == track || e in kept
    {
      assert e in r <==> e in multiset(r);
      assert e in kept + [track] <==> e in multiset(kept + [track]);
    }
  }

  /** Regenerating a track whose stored title does not end in "Track <n>" (an album-concept title) keeps the old entry beside the new one. */
  lemma ConceptTitleNotReplaced(earlier: PlaylistEntry, track: PlaylistEntry, n: int)
    requires !IsTrack(earlier, n)
    ensures earlier in UpdatePlaylist([earlier], track, n) && track in UpdatePlaylist([earlier], track, n)
  {
    PlaylistUpdated([earlier], track, n);
  }

  // ---------------------------------------------------------------------
  // `generateTrack`
  // ---------------------------------------------------------------------

  /** `String(n).padStart(2, "0")`. */
  function PadStart2(s: string): (r: string)
    ensures |r| >= 2 && IsSuffix(s, r)
    ensures |s| >= 2 ==> r == s
  {
    if |s| >= 2 then s else seq(2 - |s|, _ => '0') + s
  }

  /** The storage file name numbers tracks as the app's "%02d" does, so it reads back as the track number. */
  lemma FileNumberAgreesWithPad2(n: int)
    ensures PadStart2(IntToString(n)) == Pad2(n)
    ensures 0 <= n < 100 ==> |Pad2(n)| == 2 && AllDigits(Pad2(n)) && ParseDigits(Pad2(n)) == n
  {
    if 0 <= n < 100 {
      Pad2Value(n);
    }
  }

  function TrackFileName(uid: string, instanceId: string, trackNumber: int): string {
    "users/" + uid + "/music/" + instanceId + "/track_" + PadStart2(IntToString(trackNumber)) + ".mp3"
  }

  /** The ElevenLabs call: audio came back, or the API answered with an error text. */
  datatype ElevenLabsReply = Audio | ApiError(text: string)

  datatype TrackResult = TrackResult(fileName: string, track: PlaylistEntry, playlist: seq<PlaylistEntry>, message: string)

  /**
   * `generateTrack`, after the reads: `album` is the stored concept's
   * `tracks` (`None` without a concept), `existing` the stored playlist
   * (empty when there is none), `bucket` the storage bucket's name.
   * `trackNumber` is `None` when the request has none.
   */
  function GenerateTrack(auth: Option<string>, config: AccessConfig, instanceId: Option<string>, context: Option<MusicContext>,
                         roomName: string, trackNumber: Option<int>, album: Option<seq<TrackConcept>>,
                         reply: ElevenLabsReply, bucket: string, existing: seq<PlaylistEntry>): (r: Result<TrackResult, HttpsError>)
    ensures !RequireAuthorization(auth, config).Ok? ==> r.Err? && r.error == RequireAuthorization(auth, config).error
    ensures RequireAuthorization(auth, config).Ok? && !(Truthy(instanceId) && context.Some? && trackNumber.Some? && trackNumber.value != 0) ==>
      r == Err(InvalidArgument("instanceId, musicContext, and trackNumber are required"))
    ensures r.Ok? <==> (RequireAuthorization(auth, config).Ok? && Truthy(instanceId) && context.Some? &&
      trackNumber.Some? && trackNumber.value != 0 && reply.Audio?)
    ensures r.Ok? ==> (
      var n := trackNumber.value;
      var plan := TrackPlan(album, context.value, n, roomName);
      r.value.fileName == TrackFileName(auth.value, instanceId.value, n) &&
      r.value.track == PlaylistEntry("https://storage.googleapis.com/" + bucket + "/" + r.value.fileName, plan.1, 240, plan.0, false) &&
      r.value.playlist == UpdatePlaylist(existing, r.value.track, n))
  {
    var authorized := RequireAuthorization(auth, config);
    if !authorized.Ok? then Err(authorized.error)
    else if !Truthy(instanceId) || context.None? || trackNumber.None? || trackNumber.value == 0 then
      Err(InvalidArgument("instanceId, musicContext, and trackNumber are required"))
    else
      var n := trackNumber.value;
      var plan := TrackPlan(album, context.value, n, roomName);
      if reply.ApiError? then Err(Internal)
      else
        var fileName := TrackFileName(authorized.value, instanceId.value, n);
        var track := PlaylistEntry("https://storage.googleapis.com/" + bucket + "/" + fileName, plan.1, 240, plan.0, false);
        Ok(TrackResult(fileName, track, UpdatePlaylist(existing, track, n),
          "Generated track " + IntToString(n) + " for " + roomName))
  }

  /**
   * A track generated without a concept entry, for a room whose name does
   * not contain the marker, replaces every earlier entry of its number and
   * is sorted under its own number.
   */
  lemma FallbackTrackReplaces(uid: string, config: AccessConfig, instanceId: string, context: MusicContext, roomName: string,
                              n: int, bucket: string, existing: seq<PlaylistEntry>)
    requires CheckWhitelist(config, uid) && instanceId != "" && n != 0
    requires !Contains(roomName + " - ", Marker)
    ensures var r := GenerateTrack(Some(uid), config, Some(instanceId), Some(context), roomName, Some(n), None, Audio, bucket, existing);
      r.Ok? && r.value.track.title == FallbackTitle(roomName, n) && Key(r.value.track) == n && IsTrack(r.value.track, n) &&
      (forall e :: e in r.value.playlist && IsTrack(e, n) ==> e == r.value.track)
  {
    var r := GenerateTrack(Some(uid), config, Some(instanceId), Some(context), roomName, Some(n), None, Audio, bucket, existing);
    FallbackTitleKey(roomName, n);
    PlaylistUpdated(existing, r.value.track, n);
  }
}
