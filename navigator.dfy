/**
 * `NavigatorService.swift`: the Navigator's prompt builder, its bounded
 * conversation history, and the scan that pulls a room number out of a
 * reply.
 *
 * The remote `callGemini` call is a parameter: `reply` is the text it
 * returned, the error it threw, or the note that it returned no text. The
 * clock is the parameter `now`.
 */
module Navigator {
  import opened Text
  import Instances
  import Seasons
  import Blocks

  // ---------------------------------------------------------------------
  // Supporting types
  // ---------------------------------------------------------------------

  datatype Level = LowLevel | MediumLevel | HighLevel

  function LevelRaw(l: Level): string {
    match l
    case LowLevel => "Low"
    case MediumLevel => "Medium"
    case HighLevel => "High"
  }

  datatype Mood = Anxious | Calm | Scattered | Focused | Depleted | Excited

  function MoodRaw(m: Mood): string {
    match m
    case Anxious => "Anxious"
    case Calm => "Calm"
    case Scattered => "Scattered"
    case Focused => "Focused"
    case Depleted => "Depleted"
    case Excited => "Excited"
  }

  datatype SomaticState = SomaticState(energy: Level, tension: Level, mood: Mood)

  /** `SomaticState.default`. */
  function DefaultSomaticState(): (s: SomaticState)
    ensures s.energy == MediumLevel && s.tension == MediumLevel && s.mood == Calm
  {
    SomaticState(MediumLevel, MediumLevel, Calm)
  }

  datatype LocationContext = Home | Office | Elsewhere | UnknownLocation

  function LocationRaw(l: LocationContext): string {
    match l
    case Home => "home"
    case Office => "office"
    case Elsewhere => "elsewhere"
    case UnknownLocation => "unknown"
  }

  datatype NavigatorContext = NavigatorContext(
    currentRoom: Option<Instances.RoomInstance>,
    timeInCurrentRoom: Option<int>,
    recentRooms: seq<string>,
    availableInstances: seq<Instances.RoomInstance>,
    activeSeason: Option<Seasons.Season>,
    todaysRituals: seq<Blocks.RecurringBlock>,
    timeOfDay: string,
    currentLocation: LocationContext)

  datatype NavigatorResponse = NavigatorResponse(diagnosis: string, recommendedRoom: Option<string>, timestamp: int)

  /**
   * What `callGemini` gave back: its text, a result without a text field, or
   * the error it threw (kept as its description).
   */
  datatype CallOutcome = Replied(text: string) | NoText | Threw(error: string)

  /** `NavigatorError.invalidResponse`, or the call's own error rethrown. */
  datatype NavigatorError = InvalidResponse | CallError(error: string)

  /** The error a call outcome without text is reported as. */
  function FailureOf(reply: CallOutcome): (e: NavigatorError)
    requires !reply.Replied?
    ensures reply.NoText? <==> e == InvalidResponse
    ensures reply.Threw? ==> e.CallError? && e.error == reply.error
  {
    if reply.NoText? then InvalidResponse else CallError(reply.error)
  }

  datatype NavigatorMessage = User(text: string) | NavigatorText(text: string)

  /** `formatted`. */
  function Formatted(m: NavigatorMessage): (r: string)
    ensures m.User? ==> IsPrefix("User: ", r) && r[6..] == m.text
    ensures m.NavigatorText? ==> IsPrefix("Navigator: ", r) && r[11..] == m.text
  {
    match m
    case User(t) => "User: " + t
    case NavigatorText(t) => "Navigator: " + t
  }

  /** Different messages format differently: the role and the text can be read back. */
  lemma FormattedInjective(a: NavigatorMessage, b: NavigatorMessage)
    requires Formatted(a) == Formatted(b)
    ensures a == b
  {
    if a.User? && b.User? {
      assert a.text == Formatted(a)[6..];
    } else if a.NavigatorText? && b.NavigatorText? {
      assert a.text == Formatted(a)[11..];
    } else {
      RoleInitial(a);
      RoleInitial(b);
    }
  }

  lemma RoleInitial(m: NavigatorMessage)
    ensures |Formatted(m)| > 0 && Formatted(m)[0] == (if m.User? then 'U' else 'N')
  {
  }

  // ---------------------------------------------------------------------
  // Prompt
  // ---------------------------------------------------------------------

  /** The separator written between recent rooms (the source file stores it as these three characters). */
  const Arrow: string := " \U{E2}\U{2020}\U{2019} "

  const QuestionLines: seq<string> := [
    "\n## Question", "Based on my current state and context, what room should I transition to?"
  ]

  function StateLines(state: SomaticState, ctx: NavigatorContext): seq<string> {
    ["## Current Somatic State", "- Energy: " + LevelRaw(state.energy),
     "- Tension: " + LevelRaw(state.tension), "- Mood: " + MoodRaw(state.mood)] +
    (if ctx.timeOfDay != "" then ["- Time of day: " + ctx.timeOfDay] else [])
  }

  function RoomLines(ctx: NavigatorContext): (r: seq<string>)
    ensures |r| >= 2 && r[0] == "\n## Currently In"
  {
    match ctx.currentRoom
    case Some(room) =>
      ["\n## Currently In", "Room: " + room.variantName + " (Room " + room.definitionId + ")"] +
      (match ctx.timeInCurrentRoom
       case Some(t) => ["Time here: " + IntToString(t) + " minutes"]
       case None => [])
    case None => ["\n## Currently In", "Not in any room"]
  }

  function LocationLines(ctx: NavigatorContext): seq<string> {
    if ctx.currentLocation != UnknownLocation then ["Physical location: " + LocationRaw(ctx.currentLocation)] else []
  }

  function RecentLines(ctx: NavigatorContext): seq<string> {
    if ctx.recentRooms != [] then ["\n## Recent Transitions", Join(ctx.recentRooms, Arrow)] else []
  }

  function LocationHint(variantName: string): string {
    if Contains(ToLower(variantName), "home") then "(home)"
    else if Contains(ToLower(variantName), "office") then "(office)"
    else ""
  }

  function InstanceLine(instance: Instances.RoomInstance): string {
    "- " + instance.variantName + " [Room " + instance.definitionId + "] " + LocationHint(instance.variantName)
  }

  function InstanceLines(ctx: NavigatorContext): seq<string> {
    var shown := Prefix(ctx.availableInstances, 15);
    if ctx.availableInstances != [] then
      ["\n## Your Available Rooms"] + seq(|shown|, i requires 0 <= i < |shown| => InstanceLine(shown[i]))
    else []
  }

  /** The season section appears exactly with an active season, and then names its wing. */
  function SeasonLines(ctx: NavigatorContext): (r: seq<string>)
    ensures r == [] <==> ctx.activeSeason.None?
    ensures ctx.activeSeason.Some? ==> |r| >= 3 && r[2] == "Focus: " + Seasons.DisplayName(ctx.activeSeason.value.primaryWing)
  {
    match ctx.activeSeason
    case Some(season) =>
      ["\n## Current Season", "Season: " + season.name, "Focus: " + Seasons.DisplayName(season.primaryWing)] +
      (match season.notes
       case Some(notes) => if notes != "" then ["Intent: " + Prefix(notes, 100) + "..."] else []
       case None => [])
    case None => []
  }

  function RitualLine(block: Blocks.RecurringBlock): string {
    "- " + block.roomName + " @ " + Blocks.TimeString(block.startHour, block.startMinute)
  }

  function RitualLines(ctx: NavigatorContext): seq<string> {
    var shown := Prefix(ctx.todaysRituals, 5);
    if ctx.todaysRituals != [] then
      ["\n## Today's Scheduled Rituals"] + seq(|shown|, i requires 0 <= i < |shown| => RitualLine(shown[i]))
    else []
  }

  /** The lines `buildPrompt` appends, section by section. */
  function PromptParts(state: SomaticState, ctx: NavigatorContext): seq<string> {
    StateLines(state, ctx) + RoomLines(ctx) + LocationLines(ctx) + RecentLines(ctx) +
    InstanceLines(ctx) + SeasonLines(ctx) + RitualLines(ctx) + QuestionLines
  }

  /** The `for instance in availableInstances.prefix(15)` loop. */
  method InstanceSection(ctx: NavigatorContext) returns (lines: seq<string>)
    ensures lines == InstanceLines(ctx)
  {
    lines := [];
    if ctx.availableInstances != [] {
      lines := ["\n## Your Available Rooms"];
      var shown := Prefix(ctx.availableInstances, 15);
      ghost var all := seq(|shown|, k requires 0 <= k < |shown| => InstanceLine(shown[k]));
      var i := 0;
      while i < |shown|
        invariant 0 <= i <= |shown|
        invariant lines == ["\n## Your Available Rooms"] + all[..i]
      {
        TakeOneMore(all, i);
        lines := lines + [InstanceLine(shown[i])];
        i := i + 1;
      }
      assert all[..i] == all;
    }
  }

  /** The `for block in todaysRituals.prefix(5)` loop. */
  method RitualSection(ctx: NavigatorContext) returns (lines: seq<string>)
    ensures lines == RitualLines(ctx)
  {
    lines := [];
    if ctx.todaysRituals != [] {
      lines := ["\n## Today's Scheduled Rituals"];
      var shown := Prefix(ctx.todaysRituals, 5);
      ghost var all := seq(|shown|, k requires 0 <= k < |shown| => RitualLine(shown[k]));
      var i := 0;
      while i < |shown|
        invariant 0 <= i <= |shown|
        invariant lines == ["\n## Today's Scheduled Rituals"] + all[..i]
      {
        TakeOneMore(all, i);
        lines := lines + [RitualLine(shown[i])];
        i := i + 1;
      }
      assert all[..i] == all;
    }
  }

  /** `buildPrompt`: appends each section's lines, then joins them with newlines. */
  method BuildPrompt(state: SomaticState, ctx: NavigatorContext) returns (prompt: string)
    ensures prompt == Join(PromptParts(state, ctx), "\n")
  {
    var instances := InstanceSection(ctx);
    var rituals := RitualSection(ctx);
    var parts := StateLines(state, ctx) + RoomLines(ctx) + LocationLines(ctx) + RecentLines(ctx) +
      instances + SeasonLines(ctx) + rituals + QuestionLines;
    prompt := Join(parts, "\n");
  }

  /**
   * The prompt always ends with the question section; the room section says
   * "Not in any room" exactly when there is no current room; at most 15
   * instances and 5 rituals are listed, the first ones in order.
   */
  lemma PromptShape(state: SomaticState, ctx: NavigatorContext)
    ensures var p := PromptParts(state, ctx);
      |p| >= 2 && p[|p| - 2..] == QuestionLines
    ensures RoomLines(ctx)[1] == "Not in any room" <==> ctx.currentRoom.None?
    ensures |InstanceLines(ctx)| == if ctx.availableInstances == [] then 0 else 1 + Min(|ctx.availableInstances|, 15)
    ensures forall i :: 0 <= i < Min(|ctx.availableInstances|, 15) ==>
      InstanceLines(ctx)[i + 1] == InstanceLine(ctx.availableInstances[i])
    ensures |RitualLines(ctx)| == if ctx.todaysRituals == [] then 0 else 1 + Min(|ctx.todaysRituals|, 5)
  {
    if ctx.currentRoom.Some? {
      var line := RoomLines(ctx)[1];
      assert line[0] == 'R';
      assert "Not in any room"[0] == 'N';
    }
  }

  /** The prompt opens with the energy, tension and mood, in that order. */
  lemma PromptOpensWithState(state: SomaticState, ctx: NavigatorContext)
    ensures var p := PromptParts(state, ctx);
      |p| >= 4 && p[0] == "## Current Somatic State" && p[1] == "- Energy: " + LevelRaw(state.energy) &&
      p[2] == "- Tension: " + LevelRaw(state.tension) && p[3] == "- Mood: " + MoodRaw(state.mood)
  {
    var p := PromptParts(state, ctx);
    var head := StateLines(state, ctx);
    assert |head| >= 4;
    var x := head + RoomLines(ctx);
    assert x[..4] == head[..4];
    x := x + LocationLines(ctx) + RecentLines(ctx);
    assert x[..4] == head[..4];
    x := x + InstanceLines(ctx) + SeasonLines(ctx);
    assert x[..4] == head[..4];
    x := x + RitualLines(ctx) + QuestionLines;
    assert p[..4] == x[..4] == head[..4];
  }

  function Min(a: int, b: int): int {
    if a <= b then a else b
  }

  // ---------------------------------------------------------------------
  // Room number in a reply
  // ---------------------------------------------------------------------

  predicate ThreeDigitsAt(s: string, i: nat) {
    i + 3 <= |s| && IsDigit(s[i]) && IsDigit(s[i + 1]) && IsDigit(s[i + 2])
  }

  /**
   * Where group 1 of `(?:Room\s+)?(\d{3})` starts when a match begins at `i`:
   * first with the optional prefix (a greedy `\s+` that cannot give back a
   * blank and still reach a digit), then without it.
   */
  function GroupAt(s: string, i: nat): (r: Option<nat>)
    requires i <= |s|
    ensures r.Some? ==> i <= r.value && ThreeDigitsAt(s, r.value)
  {
    if IsAt(s, "Room", i) && SkipSpaces(s, i + 4) > i + 4 && ThreeDigitsAt(s, SkipSpaces(s, i + 4)) then
      Some(SkipSpaces(s, i + 4))
    else if ThreeDigitsAt(s, i) then Some(i)
    else None
  }

  /** `firstMatch`: the group of the leftmost position at or after `i` where the pattern matches. */
  function FirstMatchFrom(s: string, i: nat): (r: Option<nat>)
    requires i <= |s|
    ensures r.Some? ==> exists j :: i <= j <= |s| && GroupAt(s, j) == r
    ensures r.None? ==> forall j :: i <= j <= |s| ==> GroupAt(s, j).None?
    decreases |s| - i
  {
    if GroupAt(s, i).Some? then GroupAt(s, i)
    else if i == |s| then None
    else FirstMatchFrom(s, i + 1)
  }

  /** `parseRoomRecommendation`. */
  function ParseRoomRecommendation(text: string): Option<string> {
    match FirstMatchFrom(text, 0)
    case Some(g) => Some(text[g..g + 3])
    case None => None
  }

  /** The leftmost run of three digits at or after `i`. */
  function FirstThreeDigits(s: string, i: nat): (r: Option<nat>)
    requires i <= |s|
    ensures r.Some? ==> i <= r.value && ThreeDigitsAt(s, r.value)
    ensures r.Some? ==> forall j :: i <= j < r.value ==> !ThreeDigitsAt(s, j)
    ensures r.None? ==> forall j :: i <= j <= |s| ==> !ThreeDigitsAt(s, j)
    decreases |s| - i
  {
    if ThreeDigitsAt(s, i) then Some(i)
    else if i == |s| then None
    else FirstThreeDigits(s, i + 1)
  }

  /** The optional "Room" prefix never changes which digits are found: the result is the leftmost three-digit run. */
  lemma {:induction false} MatchIsFirstDigitRun(s: string, i: nat)
    requires i <= |s|
    ensures FirstMatchFrom(s, i) == FirstThreeDigits(s, i)
    decreases |s| - i
  {
    var g := GroupAt(s, i);
    if g.Some? {
      if g.value != i {
        assert s[i] == 'R';
        forall j | i <= j < g.value ensures !ThreeDigitsAt(s, j) {
          if j < i + 4 {
            assert s[j] == "Room"[j - i];
          } else {
            assert IsSpace(s[j]);
          }
        }
        FirstDigitRunUnique(s, i, g.value);
      }
    } else if i < |s| {
      MatchIsFirstDigitRun(s, i + 1);
    }
  }

  lemma FirstDigitRunUnique(s: string, i: nat, k: nat)
    requires i <= k <= |s| && ThreeDigitsAt(s, k)
    requires forall j :: i <= j < k ==> !ThreeDigitsAt(s, j)
    ensures FirstThreeDigits(s, i) == Some(k)
  {
  }

  /** The recommendation is three digits, and it is the first three-digit run of the reply ("1234" gives "123"). */
  lemma RecommendationIsFirstDigits(text: string)
    ensures ParseRoomRecommendation(text).Some? <==> exists j :: 0 <= j <= |text| && ThreeDigitsAt(text, j)
    ensures ParseRoomRecommendation(text).Some? ==>
      var j := FirstThreeDigits(text, 0).value;
      ParseRoomRecommendation(text).value == text[j..j + 3] && AllDigits(ParseRoomRecommendation(text).value) &&
      forall k :: 0 <= k < j ==> !ThreeDigitsAt(text, k)
  {
    ParseFindsFirstRun(text);
    var m := FirstThreeDigits(text, 0);
    if m.Some? {
      ThreeDigitsAreDigits(text, m.value);
    }
  }

  lemma ThreeDigitsAreDigits(s: string, j: nat)
    requires ThreeDigitsAt(s, j)
    ensures AllDigits(s[j..j + 3])
  {
    var t := s[j..j + 3];
    assert t[0] == s[j] && t[1] == s[j + 1] && t[2] == s[j + 2];
  }

  lemma ParseFindsFirstRun(text: string)
    ensures var m := FirstThreeDigits(text, 0);
      ParseRoomRecommendation(text) == if m.Some? then Some(text[m.value..m.value + 3]) else None
  {
    MatchIsFirstDigitRun(text, 0);
  }

  // ---------------------------------------------------------------------
  // Service
  // ---------------------------------------------------------------------

  const HistoryLimit: nat := 50

  /** The history after appending `m` and dropping the oldest entry when there are more than 50. */
  function Appended(history: seq<NavigatorMessage>, m: NavigatorMessage): (r: seq<NavigatorMessage>)
    ensures |history| <= HistoryLimit ==> |r| <= HistoryLimit
    ensures |r| > 0 && r[|r| - 1] == m
    ensures IsSuffixOf(r[..|r| - 1], history)
    ensures |history| < HistoryLimit ==> r == history + [m]
  {
    var h := history + [m];
    if |h| > HistoryLimit then h[1..] else h
  }

  class NavigatorService {
    var isProcessing: bool
    var lastResponse: Option<NavigatorResponse>
    var conversationHistory: seq<NavigatorMessage>

    predicate Valid()
      reads this
    {
      |conversationHistory| <= HistoryLimit
    }

    constructor ()
      ensures Valid() && !isProcessing && lastResponse.None? && conversationHistory == []
    {
      isProcessing := false;
      lastResponse := None;
      conversationHistory := [];
    }

    /** `addToHistory`: the new message is last; once over 50, only the oldest is dropped. */
    method AddToHistory(m: NavigatorMessage)
      requires Valid()
      modifies this
      ensures Valid()
      ensures conversationHistory == Appended(old(conversationHistory), m)
      ensures isProcessing == old(isProcessing) && lastResponse == old(lastResponse)
    {
      conversationHistory := conversationHistory + [m];
      if |conversationHistory| > HistoryLimit {
        conversationHistory := conversationHistory[1..];
      }
    }

    /**
     * `diagnose`: on a reply, records the response and appends the prompt
     * and the reply to the history; without one, only the processing flag
     * is touched. The flag is down again when the call returns.
     */
    method Diagnose(state: SomaticState, ctx: NavigatorContext, reply: CallOutcome, now: int)
      returns (r: Result<NavigatorResponse, NavigatorError>)
      requires Valid()
      modifies this
      ensures Valid() && !isProcessing
      ensures !reply.Replied? ==> r == Err(FailureOf(reply))
      ensures !reply.Replied? ==> conversationHistory == old(conversationHistory) && lastResponse == old(lastResponse)
      ensures reply.Replied? ==> r == Ok(NavigatorResponse(reply.text, ParseRoomRecommendation(reply.text), now))
      ensures reply.Replied? ==> lastResponse == Some(r.value)
      ensures reply.Replied? ==> (conversationHistory ==
        Appended(Appended(old(conversationHistory), User(Join(PromptParts(state, ctx), "\n"))), NavigatorText(reply.text)))
    {
      isProcessing := true;
      var prompt := BuildPrompt(state, ctx);
      if !reply.Replied? {
        isProcessing := false;
        return Err(FailureOf(reply));
      }
      var text := reply.text;
      var response := NavigatorResponse(text, ParseRoomRecommendation(text), now);
      lastResponse := Some(response);
      AddToHistory(User(prompt));
      AddToHistory(NavigatorText(text));
      isProcessing := false;
      r := Ok(response);
    }

    /**
     * `chat`: the user's message enters the history before the context is
     * built from the last ten entries, and stays there even when no reply
     * comes back. `sent` is the prompt handed to the remote call.
     */
    method Chat(message: string, reply: CallOutcome) returns (r: Result<string, NavigatorError>, sent: string)
      requires Valid()
      modifies this
      ensures Valid() && !isProcessing && lastResponse == old(lastResponse)
      ensures var withUser := Appended(old(conversationHistory), User(message));
        sent == Join(FormatAll(Suffix(withUser, 10)), "\n") + "\n\nUser: " + message &&
        (!reply.Replied? ==> r == Err(FailureOf(reply)) && conversationHistory == withUser) &&
        (reply.Replied? ==> r == Ok(reply.text) && conversationHistory == Appended(withUser, NavigatorText(reply.text)))
    {
      isProcessing := true;
      AddToHistory(User(message));
      var context := Join(FormatAll(Suffix(conversationHistory, 10)), "\n");
      sent := context + "\n\nUser: " + message;
      if !reply.Replied? {
        isProcessing := false;
        return Err(FailureOf(reply)), sent;
      }
      AddToHistory(NavigatorText(reply.text));
      isProcessing := false;
      r := Ok(reply.text);
    }
  }

  function FormatAll(ms: seq<NavigatorMessage>): (r: seq<string>)
    ensures |r| == |ms| && forall i :: 0 <= i < |ms| ==> r[i] == Formatted(ms[i])
  {
    seq(|ms|, i requires 0 <= i < |ms| => Formatted(ms[i]))
  }

  /** The chat context covers at most ten entries, the newest of which is the user's message just sent. */
  lemma ChatContextBounded(history: seq<NavigatorMessage>, message: string)
    ensures var recent := Suffix(Appended(history, User(message)), 10);
      0 < |recent| <= 10 && recent[|recent| - 1] == User(message)
  {
  }
}
