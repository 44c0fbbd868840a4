/**
 * `SeasonProposalSheet.swift`: the review sheet for a season the
 * Strategist proposed, with its day and hour labels. Applying the proposal
 * creates the season, then one recurring block per proposed block.
 *
 * Firestore is reduced to its outcomes. `seasonId` is the id that
 * `createSeason` returns, `None` when it throws. `failAt` is the index of
 * the first block whose `createRecurringBlock` throws; an index past the
 * last block means none does. The clock and the calendar's end date are
 * parameters.
 */
module SeasonProposalView {
  import opened Text
  import Seasons
  import Blocks
  import Strategist
  import StrategistView

  const ProposalDays: seq<string> := ["", "SUN", "MON", "TUE", "WED", "THU", "FRI", "SAT"]

  /** `dayName(for:)`: 1..7 as SUN..SAT, anything else "?". */
  function DayName(day: int): string {
    if 1 <= day <= 7 then ProposalDays[day] else "?"
  }

  /** The sheet's day names are the block's short day names in capitals, and "?" alike off the week. */
  lemma DayNameCapitalised(day: int)
    ensures ToLower(DayName(day)) == ToLower(Blocks.DayName(day))
    ensures 1 <= day <= 7 ==> |DayName(day)| == 3 && DayName(day)[0] == Blocks.DayName(day)[0]
  {
    if 1 <= day <= 7 {
      var p, b := DayName(day), Blocks.DayName(day);
      assert |p| == 3 && |b| == 3;
      assert ToLower(p)[1] == ToLower(b)[1] && ToLower(p)[2] == ToLower(b)[2];
    }
  }

  /** `formatTime(hour:)`: "h AM" on a 12-hour clock. */
  function FormatTime(hour: int): string {
    IntToString(Blocks.Hour12(hour)) + " " + Blocks.Period(hour)
  }

  /** The sheet's hour label is the label a block on that hour shows. */
  lemma FormatTimeAgrees(hour: int)
    ensures FormatTime(hour) == Blocks.TimeString(hour, 0)
  {
  }

  /** The primary wing of the new season: the raw value's wing, `.foundation` when none has that raw value. */
  function PrimaryWing(raw: string): (w: Seasons.Wing)
    ensures Seasons.WingFromRaw(raw).Some? ==> w == Seasons.WingFromRaw(raw).value
    ensures Seasons.WingFromRaw(raw).None? ==> w == Seasons.Foundation
  {
    Seasons.WingFromRaw(raw).GetOr(Seasons.Foundation)
  }

  /** Every wing's own raw value is read back as that wing, so only unknown strings fall back. */
  lemma PrimaryWingOfRaw(w: Seasons.Wing)
    ensures PrimaryWing(Seasons.WingRaw(w)) == w
  {
    Seasons.WingRawRoundTrip(w, Seasons.WingRaw(w));
  }

  /** The season the sheet creates: from now to the end date, no focus rooms, the description as notes. */
  function ProposedSeason(p: Strategist.SeasonProposal, now: int, endDate: int): (s: Seasons.Season)
    ensures s.id.None? && s.name == p.name && s.primaryWing == PrimaryWing(p.primaryWing)
    ensures s.startDate == now && s.endDate == endDate
    ensures s.focusRooms == [] && s.notes == Some(p.description)
  {
    Seasons.NewSeason(p.name, PrimaryWing(p.primaryWing), now, endDate, Some([]), Some(p.description))
  }

  /** One proposed block as saved: on the hour, "Room" when unnamed, and linked to the new season. */
  function ProposalBlock(p: Strategist.RecurringBlockProposal, seasonId: string): (b: Blocks.RecurringBlock)
    ensures b.definitionId == p.definitionId && b.instanceId == p.instanceId && b.variantName == p.variantName
    ensures b.roomName == p.roomName.GetOr("Room")
    ensures b.dayOfWeek == p.dayOfWeek && b.startHour == p.startHour && b.startMinute == 0
    ensures b.durationMinutes == p.duration && b.intent == Some(p.intent)
    ensures b.seasonId == Some(seasonId) && b.isActive && b.completedCount == 0 && b.missedCount == 0
  {
    Blocks.NewRecurringBlock(p.definitionId, p.instanceId, p.roomName.GetOr("Room"), p.variantName,
      p.dayOfWeek, p.startHour, Some(0), Some(p.duration), Some(p.intent), Some(seasonId))
  }

  function ProposalBlocks(ps: seq<Strategist.RecurringBlockProposal>, seasonId: string): (bs: seq<Blocks.RecurringBlock>)
    ensures |bs| == |ps| && forall k :: 0 <= k < |ps| ==> bs[k] == ProposalBlock(ps[k], seasonId)
  {
    seq(|ps|, k requires 0 <= k < |ps| => ProposalBlock(ps[k], seasonId))
  }

  /** How many blocks are saved before the first failing save. */
  function SavedCount(count: nat, failAt: Option<nat>): (n: nat)
    ensures n <= count
    ensures n < count <==> failAt.Some? && failAt.value < count
  {
    if failAt.Some? && failAt.value < count then failAt.value else count
  }

  /**
   * The blocks of an applied proposal show in the week grid under the new
   * season's filter, each in the column of its proposed day.
   */
  lemma AppliedBlocksInSeasonGrid(saved: seq<Blocks.RecurringBlock>, ps: seq<Strategist.RecurringBlockProposal>,
                                  seasonId: string, k: nat)
    requires k < |ps| && ProposalBlock(ps[k], seasonId) in saved
    ensures ProposalBlock(ps[k], seasonId) in StrategistView.DayBlocks(saved, ps[k].dayOfWeek, Some(seasonId))
  {
  }

  class ProposalSheet {
    const proposal: Strategist.FullSeasonProposal
    /** `StrategistService.shared`. */
    const strategist: Strategist.StrategistService
    var isApplying: bool
    var dismissed: bool
    /** The seasons and blocks that reached Firestore, oldest first. */
    var savedSeasons: seq<Seasons.Season>
    var savedBlocks: seq<Blocks.RecurringBlock>

    constructor (proposal: Strategist.FullSeasonProposal, strategist: Strategist.StrategistService)
      ensures this.proposal == proposal && this.strategist == strategist
      ensures !isApplying && !dismissed && savedSeasons == [] && savedBlocks == []
    {
      this.proposal := proposal;
      this.strategist := strategist;
      isApplying := false;
      dismissed := false;
      savedSeasons := [];
      savedBlocks := [];
    }

    /**
     * `applyStrategy`. The season is saved first, then the blocks in
     * order, and a throw stops the work where it happens. Blocks saved
     * before a throw stay saved. Only when everything is saved is the
     * proposal cleared and the sheet dismissed; after a throw `isApplying`
     * is false again.
     */
    method ApplyStrategy(now: int, endDate: int, seasonId: Option<string>, failAt: Option<nat>)
      modifies this, strategist
      ensures var blocks := proposal.blocks;
        var n := SavedCount(|blocks|, failAt);
        var succeeded := seasonId.Some? && n == |blocks|;
        (seasonId.None? ==> savedSeasons == old(savedSeasons) && savedBlocks == old(savedBlocks)) &&
        (seasonId.Some? ==> (savedSeasons == old(savedSeasons) + [ProposedSeason(proposal.season, now, endDate)] &&
          savedBlocks == old(savedBlocks) + ProposalBlocks(blocks[..n], seasonId.value))) &&
        (succeeded ==> isApplying && dismissed == true && strategist.proposedSeason.None?) &&
        (!succeeded ==> (!isApplying && dismissed == old(dismissed) &&
          strategist.proposedSeason == old(strategist.proposedSeason)))
      ensures strategist.messages == old(strategist.messages) && strategist.planned == old(strategist.planned)
      ensures strategist.isLoading == old(strategist.isLoading)
    {
      isApplying := true;
      var season := ProposedSeason(proposal.season, now, endDate);
      if seasonId.None? {
        isApplying := false;
        return;
      }
      savedSeasons := savedSeasons + [season];
      var blocks := proposal.blocks;
      var i := 0;
      while i < |blocks|
        invariant 0 <= i <= |blocks|
        invariant i <= SavedCount(|blocks|, failAt)
        invariant savedSeasons == old(savedSeasons) + [season] && isApplying
        invariant savedBlocks == old(savedBlocks) + ProposalBlocks(blocks[..i], seasonId.value)
        invariant dismissed == old(dismissed)
        invariant strategist.proposedSeason == old(strategist.proposedSeason)
        invariant strategist.messages == old(strategist.messages) && strategist.planned == old(strategist.planned)
        invariant strategist.isLoading == old(strategist.isLoading)
      {
        if failAt == Some(i) {
          isApplying := false;
          return;
        }
        assert blocks[..i + 1] == blocks[..i] + [blocks[i]];
        savedBlocks := savedBlocks + [ProposalBlock(blocks[i], seasonId.value)];
        i := i + 1;
      }
      assert blocks[..i] == blocks;
      strategist.proposedSeason := None;
      dismissed := true;
    }
  }
}
