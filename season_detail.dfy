/**
 * `SeasonDetailView.swift`: a season's blocks, its completed sessions
 * (newest first), the hours spent in them, and the wing's SwiftUI colour.
 */
module SeasonDetail {
  import opened Text
  import Seasons
  import Blocks
  import Strategist
  import StrategistView
  import Sorting

  /** `seasonBlocks`: the blocks whose season id equals this season's, `nil` matching `nil`. */
  function SeasonBlocks(blocks: seq<Blocks.RecurringBlock>, season: Seasons.Season): (r: seq<Blocks.RecurringBlock>)
    ensures |r| <= |blocks|
    ensures forall b :: b in r <==> b in blocks && b.seasonId == season.id
  {
    if blocks == [] then []
    else
      var rest := SeasonBlocks(blocks[1..], season);
      assert blocks == [blocks[0]] + blocks[1..];
      if blocks[0].seasonId == season.id then [blocks[0]] + rest else rest
  }

  /**
   * For a saved season, its blocks laid out by day are exactly the planning
   * grid's columns with the filter set to that season.
   */
  lemma {:induction false} SeasonBlocksMatchGrid(blocks: seq<Blocks.RecurringBlock>, season: Seasons.Season, day: int)
    requires season.id.Some?
    ensures StrategistView.DayBlocks(SeasonBlocks(blocks, season), day, None) == StrategistView.DayBlocks(blocks, day, season.id)
    decreases |blocks|
  {
    if blocks != [] {
      SeasonBlocksMatchGrid(blocks[1..], season, day);
    }
  }

  function Completed(sessions: seq<Strategist.PlannedSession>, season: Seasons.Season): (r: seq<Strategist.PlannedSession>)
    ensures forall x :: x in r <==> x in sessions && x.seasonId == season.id && x.isCompleted
    ensures forall x :: x in r ==> multiset(r)[x] == multiset(sessions)[x]
  {
    if sessions == [] then []
    else
      var rest := Completed(sessions[1..], season);
      assert sessions == [sessions[0]] + sessions[1..];
      var s := sessions[0];
      if s.seasonId == season.id && s.isCompleted then [s] + rest else rest
  }

  function ScheduledDate(s: Strategist.PlannedSession): int {
    s.scheduledDate
  }

  /** `seasonSessions`: the completed sessions of this season, newest first. */
  function SeasonSessions(sessions: seq<Strategist.PlannedSession>, season: Seasons.Season): seq<Strategist.PlannedSession> {
    Sorting.SortDescending(ScheduledDate, Completed(sessions, season))
  }

  /**
   * The list holds each completed session of the season as often as the
   * store does and nothing else, ordered from the latest scheduled date.
   */
  lemma SeasonSessionsCorrect(sessions: seq<Strategist.PlannedSession>, season: Seasons.Season)
    ensures var r := SeasonSessions(sessions, season);
      Sorting.Descending(ScheduledDate, r) &&
      (forall x :: x in r <==> x in sessions && x.seasonId == season.id && x.isCompleted) &&
      (forall x: Strategist.PlannedSession :: x.seasonId == season.id && x.isCompleted ==> multiset(r)[x] == multiset(sessions)[x])
  {
    var c := Completed(sessions, season);
    forall x: Strategist.PlannedSession | x.seasonId == season.id && x.isCompleted
      ensures multiset(SeasonSessions(sessions, season))[x] == multiset(sessions)[x]
    {
      if x !in c {
        assert x !in sessions;
      }
    }
  }

  function Durations(sessions: seq<Strategist.PlannedSession>): int {
    if sessions == [] then 0 else sessions[0].duration + Durations(sessions[1..])
  }

  /** `totalHours`: the minutes of the season's completed sessions over 60, truncating. */
  function TotalHours(seasonSessions: seq<Strategist.PlannedSession>): int {
    TruncDiv(Durations(seasonSessions), 60)
  }

  lemma {:induction false} DurationsWithout(s: seq<Strategist.PlannedSession>, j: nat)
    requires j < |s|
    ensures Durations(s) == s[j].duration + Durations(s[..j] + s[j + 1..])
    decreases j
  {
    if j > 0 {
      DurationsWithout(s[1..], j - 1);
      assert s[1..][..j - 1] + s[1..][j..] == (s[..j] + s[j + 1..])[1..];
    } else {
      assert s[..0] + s[1..] == s[1..];
    }
  }

  lemma MultisetWithout<T>(b: seq<T>, j: nat)
    requires j < |b|
    ensures multiset(b) == multiset(b[..j] + b[j + 1..]) + multiset{b[j]}
  {
    assert b == b[..j] + [b[j]] + b[j + 1..];
  }

  lemma MultisetCancel<T>(x: multiset<T>, y: multiset<T>, e: T)
    requires x + multiset{e} == y + multiset{e}
    ensures x == y
  {
    assert forall z :: x[z] == (x + multiset{e})[z] - multiset{e}[z];
  }

  /** Taking the head of `a` and its match `b[j]` away leaves two permutations of each other. */
  lemma HeadMatched<T>(a: seq<T>, b: seq<T>, j: nat)
    requires a != [] && j < |b| && b[j] == a[0] && multiset(a) == multiset(b)
    ensures multiset(a[1..]) == multiset(b[..j] + b[j + 1..])
  {
    MultisetWithout(b, j);
    MultisetWithout(a, 0);
    assert a[..0] + a[1..] == a[1..];
    MultisetCancel(multiset(a[1..]), multiset(b[..j] + b[j + 1..]), a[0]);
  }

  /** The summed minutes do not depend on the order of the sessions. */
  lemma {:induction false} DurationsPermutation(a: seq<Strategist.PlannedSession>, b: seq<Strategist.PlannedSession>)
    requires multiset(a) == multiset(b)
    ensures Durations(a) == Durations(b)
    decreases |a|
  {
    if a != [] {
      assert a[0] in multiset(b);
      var j :| 0 <= j < |b| && b[j] == a[0];
      var rest := b[..j] + b[j + 1..];
      HeadMatched(a, b, j);
      DurationsWithout(b, j);
      DurationsPermutation(a[1..], rest);
    }
  }

  /** The hours shown are the whole hours of the season's completed sessions, whatever order the list is in. */
  lemma TotalHoursOfSeason(sessions: seq<Strategist.PlannedSession>, season: Seasons.Season)
    ensures TotalHours(SeasonSessions(sessions, season)) == TruncDiv(Durations(Completed(sessions, season)), 60)
  {
    DurationsPermutation(SeasonSessions(sessions, season), Completed(sessions, season));
  }

  datatype UiColor = Blue | Gray | Orange | Green | Purple | Cyan

  function ColorName(c: UiColor): string {
    match c
    case Blue => "blue"
    case Gray => "gray"
    case Orange => "orange"
    case Green => "green"
    case Purple => "purple"
    case Cyan => "cyan"
  }

  /** `Season.Wing.uiColor`. */
  function UiColorOf(w: Seasons.Wing): UiColor {
    match w
    case Foundation => Blue
    case Administration => Gray
    case MachineShop => Orange
    case Wilderness => Green
    case Forum => Purple
    case Observatory => Cyan
  }

  /** The SwiftUI colour of every wing is the colour its `color` names, so wings keep distinct colours. */
  lemma UiColorMatchesWingColor(w: Seasons.Wing, v: Seasons.Wing)
    ensures ColorName(UiColorOf(w)) == Seasons.WingColor(w)
    ensures UiColorOf(w) == UiColorOf(v) ==> w == v
  {
    Seasons.WingTablesInjective(w, v);
  }
}
