/**
 * `StrategistView.swift`: the derived values of the planning screen. These
 * are the hour labels of the block editor, the mastery colours, summary
 * and ordering, the week grid's day columns and their wing colours, and
 * the records the two editor sheets save.
 */
module StrategistView {
  import opened Text
  import Instances
  import Definitions
  import Blocks
  import Strategist
  import Sorting

  // ---------------------------------------------------------------------
  // Hour labels
  // ---------------------------------------------------------------------

  /** `formatHour`: "h:00 AM" with the clock-face hour of `timeString`. */
  function FormatHour(hour: int): string {
    IntToString(Blocks.Hour12(hour)) + ":00 " + Blocks.Period(hour)
  }

  /**
   * For an hour of the day the label shows a clock-face hour in 1..12
   * congruent to it modulo 12 (so 0 and 12 show as 12), and "AM" exactly
   * before noon.
   */
  lemma FormatHourShape(hour: int)
    requires 0 <= hour < 24
    ensures var face := Blocks.Hour12(hour);
      1 <= face <= 12 && face % 12 == hour % 12 &&
      FormatHour(hour) == NatToString(face) + ":00 " + (if hour < 12 then "AM" else "PM")
  {
    Blocks.HourLabelRoundTrip(hour);
  }

  /** A run of digits followed by a non-digit is told apart from another such run. */
  lemma DigitsBeforeColon(a: string, x: string, b: string, y: string)
    requires AllDigits(a) && AllDigits(b)
    requires |x| > 0 && |y| > 0 && x[0] == ':' && y[0] == ':'
    requires a + x == b + y
    ensures a == b && x == y
  {
    assert (a + x)[|a|] == ':';
    assert (b + y)[|b|] == ':';
    assert |a| == |b|;
    assert a == (a + x)[..|a|];
    assert b == (b + y)[..|b|];
    assert x == (a + x)[|a|..];
    assert y == (b + y)[|b|..];
  }

  /** The picker's labels are unambiguous: two hours of the day with the same label are the same hour. */
  lemma FormatHourInjective(h1: int, h2: int)
    requires 0 <= h1 < 24 && 0 <= h2 < 24
    requires FormatHour(h1) == FormatHour(h2)
    ensures h1 == h2
  {
    Blocks.HourLabelRoundTrip(h1);
    Blocks.HourLabelRoundTrip(h2);
    var a := NatToString(Blocks.Hour12(h1));
    var b := NatToString(Blocks.Hour12(h2));
    var x, y := ":00 " + Blocks.Period(h1), ":00 " + Blocks.Period(h2);
    assert x[0] == ':' && y[0] == ':';
    assert FormatHour(h1) == a + x && FormatHour(h2) == b + y;
    DigitsBeforeColon(a, x, b, y);
    NatToStringInjective(Blocks.Hour12(h1), Blocks.Hour12(h2));
    assert Blocks.Period(h1) == (":00 " + Blocks.Period(h1))[4..];
    assert Blocks.Period(h2) == (":00 " + Blocks.Period(h2))[4..];
  }

  // ---------------------------------------------------------------------
  // Mastery
  // ---------------------------------------------------------------------

  /** `MasteryRow.masteryColor`. */
  function MasteryColor(level: int): string {
    if 1 <= level <= 3 then "blue"
    else if 4 <= level <= 6 then "green"
    else if 7 <= level <= 9 then "orange"
    else if level == 10 then "yellow"
    else "gray"
  }

  /** Each colour is used for exactly its band of levels, and gray for every level outside 1..10. */
  lemma MasteryColorBands(level: int)
    ensures MasteryColor(level) == "blue" <==> 1 <= level <= 3
    ensures MasteryColor(level) == "green" <==> 4 <= level <= 6
    ensures MasteryColor(level) == "orange" <==> 7 <= level <= 9
    ensures MasteryColor(level) == "yellow" <==> level == 10
    ensures MasteryColor(level) == "gray" <==> !(1 <= level <= 10)
  {
  }

  function Minutes(i: Instances.RoomInstance): int {
    i.extras.totalMinutes
  }

  function TotalMinutes(instances: seq<Instances.RoomInstance>): int {
    if instances == [] then 0 else TotalMinutes(instances[..|instances| - 1]) + Minutes(instances[|instances| - 1])
  }

  function TotalLevels(instances: seq<Instances.RoomInstance>): int {
    if instances == [] then 0
    else TotalLevels(instances[..|instances| - 1]) + instances[|instances| - 1].extras.masteryLevel
  }

  /** The summary card's hours: the summed minutes divided by 60, truncating. */
  function SummaryHours(instances: seq<Instances.RoomInstance>): int {
    TruncDiv(TotalMinutes(instances), 60)
  }

  /** The summary card's average level: 0 with no instances, else the summed levels over the count, truncating. */
  function AverageLevel(instances: seq<Instances.RoomInstance>): int {
    if instances == [] then 0 else TruncDiv(TotalLevels(instances), |instances|)
  }

  /** With non-negative minutes, the hours shown are the whole hours in the total. */
  lemma SummaryHoursWhole(instances: seq<Instances.RoomInstance>)
    requires TotalMinutes(instances) >= 0
    ensures var h := SummaryHours(instances);
      h >= 0 && h * 60 <= TotalMinutes(instances) < h * 60 + 60
  {
  }

  lemma {:induction false} LevelsBetween(instances: seq<Instances.RoomInstance>, lo: int, hi: int)
    requires forall k :: 0 <= k < |instances| ==> lo <= instances[k].extras.masteryLevel <= hi
    ensures lo * |instances| <= TotalLevels(instances) <= hi * |instances|
    decreases |instances|
  {
    if instances != [] {
      var front := instances[..|instances| - 1];
      LevelsBetween(front, lo, hi);
      assert lo * |instances| == lo * |front| + lo;
      assert hi * |instances| == hi * |front| + hi;
    }
  }

  lemma MulMonotone(p: int, q: int, n: nat)
    requires p <= q
    ensures p * n <= q * n
  {
    assert q * n - p * n == (q - p) * n;
  }

  /** A quotient of a total lying between lo and hi times the divisor lies between lo and hi. */
  lemma QuotientBetween(total: int, n: nat, lo: nat, hi: int)
    requires n > 0 && lo * n <= total <= hi * n
    ensures lo <= total / n <= hi
  {
    var q := total / n;
    assert total == q * n + total % n;
    assert (q + 1) * n == q * n + n;
    assert (hi + 1) * n == hi * n + n;
    if q < lo {
      MulMonotone(q + 1, lo, n);
    }
    if q > hi {
      MulMonotone(hi + 1, q, n);
    }
  }

  /** With every level in lo..hi (lo non-negative), the average shown is in lo..hi too. */
  lemma AverageInRange(instances: seq<Instances.RoomInstance>, lo: nat, hi: int)
    requires instances != []
    requires forall k :: 0 <= k < |instances| ==> lo <= instances[k].extras.masteryLevel <= hi
    ensures lo <= AverageLevel(instances) <= hi
  {
    LevelsBetween(instances, lo, hi);
    QuotientBetween(TotalLevels(instances), |instances|, lo, hi);
  }

  function WithId(s: seq<Instances.RoomInstance>): (r: seq<Instances.RoomInstance>)
    ensures forall x :: x in r <==> x in s && x.id.Some?
    ensures forall x :: x in r ==> multiset(r)[x] == multiset(s)[x]
  {
    if s == [] then []
    else
      assert s == s[..|s| - 1] + [s[|s| - 1]];
      WithId(s[..|s| - 1]) + (if s[|s| - 1].id.Some? then [s[|s| - 1]] else [])
  }

  /** `sortedByMastery`: the saved instances, most minutes first. */
  function SortedByMastery(instances: seq<Instances.RoomInstance>): seq<Instances.RoomInstance> {
    Sorting.SortDescending(Minutes, WithId(instances))
  }

  /**
   * The mastery list holds every saved instance as often as it occurs,
   * none without an id, ordered by total minutes from most to least.
   */
  lemma SortedByMasteryCorrect(instances: seq<Instances.RoomInstance>)
    ensures var r := SortedByMastery(instances);
      Sorting.Descending(Minutes, r) &&
      (forall x :: x in r <==> x in instances && x.id.Some?) &&
      (forall x: Instances.RoomInstance :: x.id.Some? ==> multiset(r)[x] == multiset(instances)[x])
  {
    var w := WithId(instances);
    forall x: Instances.RoomInstance | x.id.Some?
      ensures multiset(SortedByMastery(instances))[x] == multiset(instances)[x]
    {
      if x !in w {
        assert x !in instances;
      }
    }
  }

  // ---------------------------------------------------------------------
  // Week grid
  // ---------------------------------------------------------------------

  /** The season filter: `nil` shows every block, otherwise only blocks of that season. */
  predicate InSeason(b: Blocks.RecurringBlock, seasonFilter: Option<string>) {
    seasonFilter.None? || b.seasonId == seasonFilter
  }

  /** One column of the week grid: the blocks of that day that pass the season filter, in list order. */
  function DayBlocks(blocks: seq<Blocks.RecurringBlock>, day: int, seasonFilter: Option<string>): (r: seq<Blocks.RecurringBlock>)
    ensures |r| <= |blocks|
    ensures forall b :: b in r <==> b in blocks && b.dayOfWeek == day && InSeason(b, seasonFilter)
  {
    if blocks == [] then []
    else
      var rest := DayBlocks(blocks[1..], day, seasonFilter);
      assert blocks == [blocks[0]] + blocks[1..];
      if blocks[0].dayOfWeek == day && InSeason(blocks[0], seasonFilter) then [blocks[0]] + rest else rest
  }

  /**
   * The columns split the filtered blocks by day: a block that passes the
   * filter shows in the column of its own day and in no other, and one
   * whose day is outside 1..7 shows nowhere.
   */
  lemma ColumnsPartition(blocks: seq<Blocks.RecurringBlock>, b: Blocks.RecurringBlock, seasonFilter: Option<string>)
    requires b in blocks && InSeason(b, seasonFilter)
    ensures forall day :: 1 <= day <= 7 ==> (b in DayBlocks(blocks, day, seasonFilter) <==> day == b.dayOfWeek)
    ensures !(1 <= b.dayOfWeek <= 7) ==> forall day :: 1 <= day <= 7 ==> b !in DayBlocks(blocks, day, seasonFilter)
  {
  }

  /** With a season chosen, blocks of other seasons and blocks with no season are hidden. */
  lemma FilterHidesOtherSeasons(blocks: seq<Blocks.RecurringBlock>, day: int, season: string, b: Blocks.RecurringBlock)
    requires b.seasonId != Some(season)
    ensures b !in DayBlocks(blocks, day, Some(season))
  {
  }

  /** `wingColor(for:)`, on the definition found for the block's room (`None` when there is none). */
  function WingColor(def: Option<Definitions.RoomDefinition>): string {
    if def.None? then "purple"
    else
      var hint := def.value.physicsHint;
      if Contains(hint, "Low D") && Contains(hint, "Low A") then "blue"
      else if Contains(hint, "Low D") && Contains(hint, "High A") then "gray"
      else if Contains(hint, "High D") && Contains(hint, "High A") then "orange"
      else if Contains(hint, "High D") && Contains(hint, "Low A") then "green"
      else "purple"
  }

  function BlockWingColor(loader: Definitions.RoomLoader, b: Blocks.RecurringBlock): string
    reads loader
  {
    WingColor(loader.Definition(b.definitionId))
  }

  /**
   * The colours by the hint's case-sensitive markers, in the order the
   * tests run: blue for "Low D" with "Low A", gray for "Low D" with
   * "High A", orange for "High D" with "High A", green for "High D" with
   * "Low A", and purple when no pair is present or no definition is found.
   */
  lemma WingColorCases(def: Option<Definitions.RoomDefinition>)
    ensures def.None? ==> WingColor(def) == "purple"
    ensures def.Some? ==> var h := def.value.physicsHint;
      var lowD, highD, lowA, highA := Contains(h, "Low D"), Contains(h, "High D"), Contains(h, "Low A"), Contains(h, "High A");
      (WingColor(def) == "blue" <==> lowD && lowA) &&
      (WingColor(def) == "gray" <==> lowD && !lowA && highA) &&
      (WingColor(def) == "orange" <==> !lowD && highD && highA) &&
      (WingColor(def) == "green" <==> !lowD && highD && !highA && lowA) &&
      (WingColor(def) == "purple" <==> !((lowD || highD) && (lowA || highA)))
  {
  }

  /** A hint without capital letters never names a pair, so its block is purple. */
  lemma LowerCaseHintIsPurple(def: Definitions.RoomDefinition)
    requires forall k :: 0 <= k < |def.physicsHint| ==> !('A' <= def.physicsHint[k] <= 'Z')
    ensures WingColor(Some(def)) == "purple"
  {
    var h := def.physicsHint;
    forall pat | pat in ["Low D", "High D"]
      ensures !Contains(h, pat)
    {
      if Contains(h, pat) {
        CapitalAt(h, pat);
      }
    }
  }

  lemma CapitalAt(h: string, pat: string)
    requires |pat| > 0 && 'A' <= pat[0] <= 'Z' && Contains(h, pat)
    ensures exists k :: 0 <= k < |h| && 'A' <= h[k] <= 'Z'
  {
    var i :| 0 <= i <= |h| && IsAt(h, pat, i);
    assert h[i..i + |pat|][0] == h[i];
  }

  // ---------------------------------------------------------------------
  // Editor sheets
  // ---------------------------------------------------------------------

  /**
   * `PlanSessionSheet.createSession`: nothing without a selected instance
   * whose definition is found; otherwise a planned session for it at the
   * combined date and time, with empty notes stored as `nil`.
   */
  function CreateSession(selected: Option<Instances.RoomInstance>, def: Option<Definitions.RoomDefinition>,
                         scheduledDate: int, duration: int, notes: string, seasonId: Option<string>): (r: Option<Strategist.PlannedSession>)
    ensures r.Some? <==> selected.Some? && def.Some?
    ensures r.Some? ==> r.value.definitionId == selected.value.definitionId && r.value.instanceId == selected.value.id
    ensures r.Some? ==> r.value.roomName == def.value.name && r.value.variantName == Some(selected.value.variantName)
    ensures r.Some? ==> r.value.scheduledDate == scheduledDate && r.value.duration == duration && !r.value.isCompleted
    ensures r.Some? ==> (r.value.notes.None? <==> notes == "") && r.value.seasonId == seasonId
  {
    if selected.None? || def.None? then None
    else
      var i := selected.value;
      Some(Strategist.PlannedSession(i.definitionId, i.id, def.value.name, Some(i.variantName),
        scheduledDate, duration, false, NonEmptyOrNone(notes), seasonId))
  }

  /**
   * `RecurringBlockEditorSheet.createBlock`: nothing without a selected
   * instance whose definition is found; otherwise an active block on the
   * hour, with empty intent stored as `nil`.
   */
  function CreateBlock(selected: Option<Instances.RoomInstance>, def: Option<Definitions.RoomDefinition>,
                       dayOfWeek: int, startHour: int, duration: int, intent: string, seasonId: Option<string>): (r: Option<Blocks.RecurringBlock>)
    ensures r.Some? <==> selected.Some? && def.Some?
    ensures r.Some? ==> r.value.definitionId == selected.value.definitionId && r.value.instanceId == selected.value.id
    ensures r.Some? ==> r.value.roomName == def.value.name && r.value.variantName == Some(selected.value.variantName)
    ensures r.Some? ==> r.value.dayOfWeek == dayOfWeek && r.value.startHour == startHour && r.value.startMinute == 0
    ensures r.Some? ==> r.value.durationMinutes == duration && r.value.isActive && r.value.seasonId == seasonId
    ensures r.Some? ==> (r.value.intent.None? <==> intent == "") && (r.value.intent.Some? ==> r.value.intent.value == intent)
  {
    if selected.None? || def.None? then None
    else
      var i := selected.value;
      Some(Blocks.NewRecurringBlock(i.definitionId, i.id, def.value.name, Some(i.variantName),
        dayOfWeek, startHour, None, Some(duration), NonEmptyOrNone(intent), seasonId))
  }
}
