/**
 * `StrategistService.swift`: the Strategist agent's chat log, the season
 * proposal it drafts and the single sessions it schedules.
 *
 * As for the Engineer, the remote reply, the JSON decoder and the Firestore
 * write are parameters; `parseDate` stands for `ISO8601DateFormatter` and
 * `formatDate` for the medium/short `DateFormatter`, with instants as
 * integers.
 */
module Strategist {
  import opened Text
  import AgentJson

  datatype SeasonProposal = SeasonProposal(name: string, primaryWing: string, description: string, durationWeeks: int)

  datatype RecurringBlockProposal = RecurringBlockProposal(
    definitionId: string,
    instanceId: Option<string>,
    roomName: Option<string>,
    variantName: Option<string>,
    dayOfWeek: int,
    startHour: int,
    duration: int,
    intent: string)

  /** `RecurringBlockProposal.id`: the day in decimal followed by the room name, if any. */
  function ProposalId(b: RecurringBlockProposal): string {
    IntToString(b.dayOfWeek) + b.roomName.GetOr("")
  }

  /**
   * For days 1 through 7 the id is one digit followed by the room name, so
   * it tells the day and the room name apart; two blocks share an id
   * exactly when they share both.
   */
  lemma ProposalIdParts(a: RecurringBlockProposal, b: RecurringBlockProposal)
    requires 1 <= a.dayOfWeek <= 7 && 1 <= b.dayOfWeek <= 7
    ensures ProposalId(a) == [DigitChar(a.dayOfWeek)] + a.roomName.GetOr("")
    ensures ProposalId(a) == ProposalId(b) <==>
      a.dayOfWeek == b.dayOfWeek && a.roomName.GetOr("") == b.roomName.GetOr("")
  {
    assert NatToString(a.dayOfWeek) == [DigitChar(a.dayOfWeek)];
    assert NatToString(b.dayOfWeek) == [DigitChar(b.dayOfWeek)];
    if ProposalId(a) == ProposalId(b) {
      assert ProposalId(a)[0] == ProposalId(b)[0];
      DigitCharInjective(a.dayOfWeek, b.dayOfWeek);
      assert a.roomName.GetOr("") == ProposalId(a)[1..];
    }
  }

  lemma DigitCharInjective(a: int, b: int)
    requires 0 <= a < 10 && 0 <= b < 10 && DigitChar(a) == DigitChar(b)
    ensures a == b
  {
  }

  datatype ActionData = ActionData(
    kind: string,
    definitionId: Option<string>,
    instanceId: Option<string>,
    roomName: Option<string>,
    variantName: Option<string>,
    scheduledDate: Option<string>,
    duration: Option<int>,
    season: Option<SeasonProposal>,
    blocks: Option<seq<RecurringBlockProposal>>)

  datatype StrategistResponse = StrategistResponse(message: string, action: Option<ActionData>)

  datatype FullSeasonProposal = FullSeasonProposal(season: SeasonProposal, blocks: seq<RecurringBlockProposal>)

  /** `PlannedSession` as the Strategist creates it. */
  datatype PlannedSession = PlannedSession(
    definitionId: string,
    instanceId: Option<string>,
    roomName: string,
    variantName: Option<string>,
    scheduledDate: int,
    duration: int,
    isCompleted: bool,
    notes: Option<string>,
    seasonId: Option<string>)

  datatype Role = UserRole | StrategistRole

  datatype StrategistMessage = StrategistMessage(role: Role, content: string)

  datatype Reply = Threw | NoText | Text(text: string)

  datatype SaveOutcome = Succeeds | Fails

  /** Replies, the proposal to show (if the action sets one) and the session written (if any). */
  datatype Effect = Effect(replies: seq<string>, proposal: Option<FullSeasonProposal>, session: Option<PlannedSession>)

  const NoEffect := Effect([], None, None)

  const MissingDetails := "\U{274C} Missing required session details"
  const InvalidDate := "\U{274C} Invalid date format"

  /** What `executeAction` does. */
  function ActionEffect(action: ActionData, parseDate: string -> Option<int>, formatDate: int -> string,
                        save: SaveOutcome): Effect
  {
    if action.kind == "propose_season" then
      if action.season.None? || action.blocks.None? then NoEffect
      else
        Effect(["\U{2728} I've drafted a Season Strategy: **" + action.season.value.name +
                "**. Tap the card above to review."],
               Some(FullSeasonProposal(action.season.value, action.blocks.value)), None)
    else if action.kind == "schedule_session" then
      if action.roomName.None? || action.definitionId.None? || action.scheduledDate.None? then
        Effect([MissingDetails], None, None)
      else match parseDate(action.scheduledDate.value)
        case None => Effect([InvalidDate], None, None)
        case Some(date) =>
          var session := PlannedSession(action.definitionId.value, action.instanceId, action.roomName.value,
            action.variantName, date, action.duration.GetOr(30), false, None, None);
          if save.Succeeds? then
            Effect(["\U{2705} Scheduled **" + action.roomName.value + "** for " + formatDate(date)], None, Some(session))
          else Effect(["\U{274C} Failed to schedule session"], None, None)
    else NoEffect
  }

  /** A proposal needs both the season and the blocks, and then shows exactly those. */
  lemma ProposeSeason(action: ActionData, parseDate: string -> Option<int>, formatDate: int -> string, save: SaveOutcome)
    requires action.kind == "propose_season"
    ensures ActionEffect(action, parseDate, formatDate, save).session.None?
    ensures action.season.None? || action.blocks.None? ==> ActionEffect(action, parseDate, formatDate, save) == NoEffect
    ensures action.season.Some? && action.blocks.Some? ==>
      var e := ActionEffect(action, parseDate, formatDate, save);
      e.proposal == Some(FullSeasonProposal(action.season.value, action.blocks.value)) && |e.replies| == 1
  {
  }

  /** The action names a room, a definition and a date. */
  predicate HasSessionFields(a: ActionData) {
    a.roomName.Some? && a.definitionId.Some? && a.scheduledDate.Some?
  }

  /** The action's date is present and parses. */
  predicate DateParses(a: ActionData, parseDate: string -> Option<int>) {
    a.scheduledDate.Some? && parseDate(a.scheduledDate.value).Some?
  }

  /**
   * Scheduling: a missing field or an unparsable date gives exactly one
   * error reply and no session; otherwise the session carries the given
   * fields, lasts 30 minutes unless told otherwise, and is not completed.
   */
  lemma ScheduleSession(action: ActionData, parseDate: string -> Option<int>, formatDate: int -> string, save: SaveOutcome)
    requires action.kind == "schedule_session"
    ensures ActionEffect(action, parseDate, formatDate, save).proposal.None?
    ensures |ActionEffect(action, parseDate, formatDate, save).replies| == 1
    ensures !HasSessionFields(action) ==> ActionEffect(action, parseDate, formatDate, save) == Effect([MissingDetails], None, None)
    ensures HasSessionFields(action) && !DateParses(action, parseDate) ==>
      ActionEffect(action, parseDate, formatDate, save) == Effect([InvalidDate], None, None)
    ensures ActionEffect(action, parseDate, formatDate, save).session.Some? <==>
      HasSessionFields(action) && DateParses(action, parseDate) && save.Succeeds?
    ensures ActionEffect(action, parseDate, formatDate, save).session.Some? ==>
      var session := ActionEffect(action, parseDate, formatDate, save).session.value;
      session.duration == action.duration.GetOr(30) && !session.isCompleted &&
      session.roomName == action.roomName.value && session.definitionId == action.definitionId.value &&
      session.scheduledDate == parseDate(action.scheduledDate.value).value
  {
  }

  /** Any other action type changes nothing. */
  lemma UnknownActionIgnored(action: ActionData, parseDate: string -> Option<int>, formatDate: int -> string, save: SaveOutcome)
    requires action.kind != "propose_season" && action.kind != "schedule_session"
    ensures ActionEffect(action, parseDate, formatDate, save) == NoEffect
  {
  }

  function FormatMessage(m: StrategistMessage): string {
    match m.role
    case UserRole => "User: " + m.content
    case StrategistRole => "Strategist: " + m.content
  }

  /** A context line gives its message back: the label names the role and the rest is the content. */
  lemma FormatMessageInjective(a: StrategistMessage, b: StrategistMessage)
    requires FormatMessage(a) == FormatMessage(b)
    ensures a == b
  {
    var line := FormatMessage(a);
    if a.role == b.role == UserRole {
      assert a.content == line[6..] == b.content;
    } else if a.role == b.role {
      assert a.content == line[12..] == b.content;
    } else {
      LabelInitial(a);
      LabelInitial(b);
    }
  }

  lemma LabelInitial(m: StrategistMessage)
    ensures |FormatMessage(m)| > 0 && FormatMessage(m)[0] == (if m.role == UserRole then 'U' else 'S')
  {
  }

  function FormatAll(ms: seq<StrategistMessage>): (r: seq<string>)
    ensures |r| == |ms| && forall i :: 0 <= i < |ms| ==> r[i] == FormatMessage(ms[i])
  {
    seq(|ms|, i requires 0 <= i < |ms| => FormatMessage(ms[i]))
  }

  function Strategist(text: string): StrategistMessage {
    StrategistMessage(StrategistRole, text)
  }

  function StrategistAll(texts: seq<string>): seq<StrategistMessage> {
    seq(|texts|, i requires 0 <= i < |texts| => Strategist(texts[i]))
  }

  lemma StrategistAllCons(m: string, rs: seq<string>)
    ensures StrategistAll([m] + rs) == [Strategist(m)] + StrategistAll(rs)
  {
  }

  class StrategistService {
    var messages: seq<StrategistMessage>
    var isLoading: bool
    var proposedSeason: Option<FullSeasonProposal>
    /** The planned sessions that reached Firestore, oldest first. */
    var planned: seq<PlannedSession>

    constructor ()
      ensures messages == [] && !isLoading && proposedSeason.None? && planned == []
    {
      messages := [];
      isLoading := false;
      proposedSeason := None;
      planned := [];
    }

    /** `executeAction`. */
    method ExecuteAction(action: ActionData, parseDate: string -> Option<int>, formatDate: int -> string,
                         save: SaveOutcome)
      modifies this
      ensures var e := ActionEffect(action, parseDate, formatDate, save);
        messages == old(messages) + StrategistAll(e.replies) &&
        proposedSeason == (if e.proposal.Some? then e.proposal else old(proposedSeason)) &&
        planned == old(planned) + (if e.session.Some? then [e.session.value] else [])
      ensures isLoading == old(isLoading)
    {
      if action.kind == "propose_season" {
        if action.season.None? || action.blocks.None? {
          return;
        }
        var season := action.season.value;
        proposedSeason := Some(FullSeasonProposal(season, action.blocks.value));
        messages := messages + [Strategist("\U{2728} I've drafted a Season Strategy: **" + season.name +
          "**. Tap the card above to review.")];
      } else if action.kind == "schedule_session" {
        if action.roomName.None? || action.definitionId.None? || action.scheduledDate.None? {
          messages := messages + [Strategist(MissingDetails)];
          return;
        }
        var roomName := action.roomName.value;
        var scheduledDate := parseDate(action.scheduledDate.value);
        if scheduledDate.None? {
          messages := messages + [Strategist(InvalidDate)];
          return;
        }
        var session := PlannedSession(action.definitionId.value, action.instanceId, roomName,
          action.variantName, scheduledDate.value, action.duration.GetOr(30), false, None, None);
        if save.Succeeds? {
          planned := planned + [session];
          messages := messages + [Strategist("\U{2705} Scheduled **" + roomName + "** for " + formatDate(scheduledDate.value))];
        } else {
          messages := messages + [Strategist("\U{274C} Failed to schedule session")];
        }
      }
    }

    /**
     * `sendMessage`: the user's message first, the conversation context from
     * the last six messages including it, then the reply's messages and the
     * action's effects.
     */
    method SendMessage(text: string, reply: Reply, decode: string -> Option<StrategistResponse>,
                       parseDate: string -> Option<int>, formatDate: int -> string, save: SaveOutcome)
      returns (conversation: string)
      requires reply.Text? ==> AgentJson.Extractable(reply.text)
      modifies this
      ensures var withUser := old(messages) + [StrategistMessage(UserRole, text)];
        var e := ReplyEffect(reply, decode, parseDate, formatDate, save);
        conversation == Join(FormatAll(Suffix(withUser, 6)), "\n") &&
        messages == withUser + StrategistAll(e.replies) &&
        proposedSeason == (if e.proposal.Some? then e.proposal else old(proposedSeason)) &&
        planned == old(planned) + (if e.session.Some? then [e.session.value] else [])
      ensures !isLoading
    {
      messages := messages + [StrategistMessage(UserRole, text)];
      isLoading := true;
      conversation := Join(FormatAll(Suffix(messages, 6)), "\n");
      match reply {
        case Threw =>
          messages := messages + [Strategist("Connection issue. Try again.")];
        case NoText =>
        case Text(t) =>
          HandleText(t, decode, parseDate, formatDate, save);
      }
      isLoading := false;
    }

    /** The structured-or-plain handling of a reply text. */
    method HandleText(t: string, decode: string -> Option<StrategistResponse>,
                      parseDate: string -> Option<int>, formatDate: int -> string, save: SaveOutcome)
      requires AgentJson.Extractable(t)
      modifies this
      ensures var e := ReplyEffect(Text(t), decode, parseDate, formatDate, save);
        messages == old(messages) + StrategistAll(e.replies) &&
        proposedSeason == (if e.proposal.Some? then e.proposal else old(proposedSeason)) &&
        planned == old(planned) + (if e.session.Some? then [e.session.value] else [])
      ensures isLoading == old(isLoading)
    {
      var response := StructuredReply(t, decode);
      if response.Some? {
        ApplyResponse(response.value, parseDate, formatDate, save);
      } else {
        messages := messages + [Strategist(t)];
      }
    }

    /** A decoded reply: its message is added, then its action is carried out. */
    method ApplyResponse(response: StrategistResponse, parseDate: string -> Option<int>,
                         formatDate: int -> string, save: SaveOutcome)
      modifies this
      ensures var e := ResponseEffect(response, parseDate, formatDate, save);
        messages == old(messages) + StrategistAll(e.replies) &&
        proposedSeason == (if e.proposal.Some? then e.proposal else old(proposedSeason)) &&
        planned == old(planned) + (if e.session.Some? then [e.session.value] else [])
      ensures isLoading == old(isLoading)
    {
      messages := messages + [Strategist(response.message)];
      if response.action.Some? {
        ghost var e := ActionEffect(response.action.value, parseDate, formatDate, save);
        ExecuteAction(response.action.value, parseDate, formatDate, save);
        StrategistAllCons(response.message, e.replies);
      }
    }

    /** `clearMessages` empties the log and leaves any proposal in place. */
    method ClearMessages()
      modifies this
      ensures messages == [] && proposedSeason == old(proposedSeason) && planned == old(planned)
      ensures isLoading == old(isLoading)
    {
      messages := [];
    }
  }

  /** The messages a reply adds after the user's message, and the action's effects. */
  function ReplyEffect(reply: Reply, decode: string -> Option<StrategistResponse>,
                       parseDate: string -> Option<int>, formatDate: int -> string, save: SaveOutcome): Effect
    requires reply.Text? ==> AgentJson.Extractable(reply.text)
  {
    match reply
    case Threw => Effect(["Connection issue. Try again."], None, None)
    case NoText => NoEffect
    case Text(t) =>
      match StructuredReply(t, decode)
      case Some(response) => ResponseEffect(response, parseDate, formatDate, save)
      case None => Effect([t], None, None)
  }

  /** A decoded reply: its message, then what its action leads to. */
  function ResponseEffect(response: StrategistResponse, parseDate: string -> Option<int>,
                          formatDate: int -> string, save: SaveOutcome): Effect {
    match response.action
    case Some(a) =>
      var e := ActionEffect(a, parseDate, formatDate, save);
      Effect([response.message] + e.replies, e.proposal, e.session)
    case None => Effect([response.message], None, None)
  }

  /** The decoded response, when the reply holds a braced block that decodes. */
  function StructuredReply(t: string, decode: string -> Option<StrategistResponse>): Option<StrategistResponse>
    requires AgentJson.Extractable(t)
  {
    match AgentJson.ExtractJson(t)
    case Some(json) => decode(json)
    case None => None
  }
}
