/**
 * `RecurringBlock.swift`: a pre-booked weekly room session, with its day and
 * time labels and its adherence statistics. `lastCompleted` is a timestamp
 * in seconds; nothing here reads it.
 */
module Blocks {
  import opened Text

  datatype RecurringBlock = RecurringBlock(
    id: Option<string>,
    definitionId: string,
    instanceId: Option<string>,
    roomName: string,
    variantName: Option<string>,
    dayOfWeek: int,
    startHour: int,
    startMinute: int,
    durationMinutes: int,
    intent: Option<string>,
    isActive: bool,
    seasonId: Option<string>,
    completedCount: int,
    missedCount: int,
    lastCompleted: Option<int>)

  /** The initialiser; `None` stands for an argument left at its default. */
  function NewRecurringBlock(
    definitionId: string, instanceId: Option<string>, roomName: string, variantName: Option<string>,
    dayOfWeek: int, startHour: int, startMinute: Option<int>, durationMinutes: Option<int>,
    intent: Option<string>, seasonId: Option<string>): (b: RecurringBlock)
    ensures b.isActive && b.completedCount == 0 && b.missedCount == 0 && b.lastCompleted.None?
    ensures b.startMinute == startMinute.GetOr(0) && b.durationMinutes == durationMinutes.GetOr(60)
    ensures b.id.None? && b.definitionId == definitionId && b.instanceId == instanceId
    ensures b.roomName == roomName && b.variantName == variantName && b.dayOfWeek == dayOfWeek
    ensures b.startHour == startHour && b.intent == intent && b.seasonId == seasonId
  {
    RecurringBlock(None, definitionId, instanceId, roomName, variantName, dayOfWeek, startHour,
      startMinute.GetOr(0), durationMinutes.GetOr(60), intent, true, seasonId, 0, 0, None)
  }

  // ---------------------------------------------------------------------
  // Day names
  // ---------------------------------------------------------------------

  const ShortDays: seq<string> := ["", "Sun", "Mon", "Tue", "Wed", "Thu", "Fri", "Sat"]
  const FullDays: seq<string> := ["", "Sunday", "Monday", "Tuesday", "Wednesday", "Thursday", "Friday", "Saturday"]

  /** `dayName`: 1 is Sunday, 7 is Saturday, anything else is "?". */
  function DayName(dayOfWeek: int): string {
    if 1 <= dayOfWeek <= 7 then ShortDays[dayOfWeek] else "?"
  }

  /** `dayNameFull`: the same days spelled out, anything else is "Unknown". */
  function DayNameFull(dayOfWeek: int): string {
    if 1 <= dayOfWeek <= 7 then FullDays[dayOfWeek] else "Unknown"
  }

  /** The short name is the first three letters of the full name, and the seven days have distinct names. */
  lemma DayNamesAgree(d: int, e: int)
    ensures 1 <= d <= 7 ==> |DayNameFull(d)| >= 3 && DayName(d) == DayNameFull(d)[..3]
    ensures !(1 <= d <= 7) ==> DayName(d) == "?" && DayNameFull(d) == "Unknown"
    ensures 1 <= d <= 7 && 1 <= e <= 7 ==> (DayName(d) == DayName(e) <==> d == e)
  {
    if 1 <= d <= 7 && 1 <= e <= 7 && d != e {
      assert DayName(d)[..2] != DayName(e)[..2] || DayName(d)[2] != DayName(e)[2];
    }
  }

  // ---------------------------------------------------------------------
  // Time label
  // ---------------------------------------------------------------------

  /** The hour on a 12-hour clock face, with Swift's truncating `%`. */
  function Hour12(startHour: int): int {
    if TruncMod(startHour, 12) == 0 then 12 else TruncMod(startHour, 12)
  }

  function Period(startHour: int): string {
    if startHour < 12 then "AM" else "PM"
  }

  /** `timeString`: "h AM" on the hour, otherwise "h:mm AM" with the minutes in two digits. */
  function TimeString(startHour: int, startMinute: int): string {
    if startMinute == 0 then IntToString(Hour12(startHour)) + " " + Period(startHour)
    else IntToString(Hour12(startHour)) + ":" + Pad2(startMinute) + " " + Period(startHour)
  }

  /** The 24-hour hour that a clock-face hour and a period denote. */
  function Hour24(hour12: int, am: bool): int {
    if am then (if hour12 == 12 then 0 else hour12) else (if hour12 == 12 then 12 else hour12 + 12)
  }

  /**
   * For a valid hour, the clock-face hour is in 1..12, "AM" is shown exactly
   * before noon, and the two together give the hour back, so the label is
   * unambiguous.
   */
  lemma HourLabelRoundTrip(h: int)
    requires 0 <= h < 24
    ensures 1 <= Hour12(h) <= 12
    ensures Period(h) == "AM" <==> h < 12
    ensures Hour24(Hour12(h), Period(h) == "AM") == h
  {
  }

  /** Minutes are left out on the hour and otherwise shown as two digits that read back as the minutes. */
  lemma MinuteLabel(h: int, m: int)
    requires 0 <= h < 24 && 0 <= m < 60
    ensures m == 0 ==> ':' !in TimeString(h, m)
    ensures m != 0 ==> |Pad2(m)| == 2 && ParseDigits(Pad2(m)) == m
    ensures m != 0 ==> TimeString(h, m) == NatToString(Hour12(h)) + ":" + Pad2(m) + " " + Period(h)
  {
    var hour := NatToString(Hour12(h));
    if m == 0 {
      assert TimeString(h, m) == hour + " " + Period(h);
      assert forall k :: 0 <= k < |hour| ==> hour[k] != ':';
    } else {
      Pad2Value(m);
    }
  }

  // ---------------------------------------------------------------------
  // Adherence
  // ---------------------------------------------------------------------

  /** `adherenceRate`: 1.0 with nothing recorded, else the completed share. */
  function AdherenceRate(completed: int, missed: int): real {
    var total := completed + missed;
    if total <= 0 then 1.0 else completed as real / total as real
  }

  /** With non-negative counts the rate is a proportion. */
  lemma AdherenceInRange(completed: int, missed: int)
    requires completed >= 0 && missed >= 0
    ensures 0.0 <= AdherenceRate(completed, missed) <= 1.0
    ensures completed + missed > 0 ==> AdherenceRate(completed, missed) * (completed + missed) as real == completed as real
  {
  }

  /** `isStruggling`: three or more misses and under half completed. */
  predicate IsStruggling(completed: int, missed: int) {
    missed >= 3 && AdherenceRate(completed, missed) < 0.5
  }

  lemma BelowHalf(c: real, t: real)
    requires t > 0.0
    ensures c / t < 0.5 <==> 2.0 * c < t
  {
    var q := c / t;
    assert q * t == c;
    if q < 0.5 {
      assert q * t < 0.5 * t;
    } else {
      assert q * t >= 0.5 * t;
    }
  }

  /** With non-negative counts, struggling means at least three misses and more misses than completions. */
  lemma StrugglingMeansMoreMissed(completed: int, missed: int)
    requires completed >= 0 && missed >= 0
    ensures IsStruggling(completed, missed) <==> missed >= 3 && missed > completed
  {
    if missed >= 3 {
      BelowHalf(completed as real, (completed + missed) as real);
    }
  }
}
