/**
 * `Session.swift`: one visit to a room instance. Instants are seconds as
 * `real`s, so `timeIntervalSince` is a subtraction and `Int(...)` truncates
 * it toward zero.
 */
module Sessions {
  import opened Text

  datatype Session = Session(
    id: Option<string>,
    instanceId: string,
    definitionId: string,
    roomName: string,
    variantName: string,
    startedAt: real,
    endedAt: Option<real>,
    observations: seq<string>)

  /** The initialiser, with the clock reading `now`. */
  function NewSession(instanceId: string, definitionId: string, roomName: string, variantName: string, now: real): (s: Session)
    ensures s.endedAt.None? && s.observations == [] && s.startedAt == now && s.id.None?
    ensures s.instanceId == instanceId && s.definitionId == definitionId
    ensures s.roomName == roomName && s.variantName == variantName
  {
    Session(None, instanceId, definitionId, roomName, variantName, now, None, [])
  }

  /** `Int(x)` for a `Double`: truncation toward zero. */
  function Truncate(x: real): (n: int)
    ensures x >= 0.0 ==> n as real <= x < n as real + 1.0
    ensures x < 0.0 ==> n as real - 1.0 < x <= n as real
  {
    if x >= 0.0 then x.Floor else -((-x).Floor)
  }

  function DurationSeconds(s: Session): (d: Option<int>)
    ensures d.None? <==> s.endedAt.None?
  {
    match s.endedAt
    case None => None
    case Some(end) => Some(Truncate(end - s.startedAt))
  }

  predicate IsActive(s: Session) {
    s.endedAt.None?
  }

  /** "Xm Ys" with at least a minute, else "Ys", using Swift's truncating `/` and `%`. */
  function FormatSeconds(seconds: int): string {
    var mins := TruncDiv(seconds, 60);
    var secs := TruncMod(seconds, 60);
    if mins > 0 then IntToString(mins) + "m " + IntToString(secs) + "s" else IntToString(secs) + "s"
  }

  function FormattedDuration(s: Session): string {
    match DurationSeconds(s)
    case None => "In progress..."
    case Some(seconds) => FormatSeconds(seconds)
  }

  /** A session is active exactly while it has no duration, and only then reads "In progress...". */
  lemma ActiveIffNoDuration(s: Session)
    ensures IsActive(s) <==> DurationSeconds(s).None?
    ensures IsActive(s) ==> FormattedDuration(s) == "In progress..."
    ensures !IsActive(s) ==> FormattedDuration(s) == FormatSeconds(DurationSeconds(s).value)
  {
  }

  /** Under a minute the label is the seconds alone, so it holds no "m ". */
  lemma ShortDurationHasNoMinutes(seconds: int)
    requires 0 <= seconds < 60
    ensures FormatSeconds(seconds) == NatToString(seconds) + "s"
    ensures !Contains(FormatSeconds(seconds), "m ")
  {
    assert TruncDiv(seconds, 60) == 0 && TruncMod(seconds, 60) == seconds;
    var r := NatToString(seconds) + "s";
    forall k | 0 <= k < |r|
      ensures r[k] != 'm'
    {
      if k < |r| - 1 {
        assert IsDigit(r[k]);
      }
    }
    MissingFirstChar(r, "m ");
  }

  /** From a minute on, the two numbers shown are the whole minutes and the remaining seconds. */
  lemma LongDurationSplits(seconds: int)
    requires seconds >= 60
    ensures FormatSeconds(seconds) == NatToString(seconds / 60) + "m " + NatToString(seconds % 60) + "s"
    ensures (seconds / 60) * 60 + seconds % 60 == seconds && 0 <= seconds % 60 < 60
  {
  }
}
