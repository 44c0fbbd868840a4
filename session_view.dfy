/**
 * `SessionView.swift`: the screen of a session in progress. It has a
 * timer, a pause switch, the observation notes and the entry/exit
 * transitions around the active part.
 *
 * The screen is the `SessionScreen` class. The asynchronous tasks are
 * split at their `await`. `EntryReady` and `ExitReady` are the main-actor
 * continuations that run when the transition text arrives. The Firebase
 * calls are parameters or logs: whether `endSession` throws, and the
 * observations handed to `addObservation`. A timer is counted, not run:
 * `liveTimers` is the number of scheduled timers still firing, and
 * `Tick` is one of them firing.
 */
module SessionView {
  import opened Text
  import Instances
  import Definitions
  import Guide

  datatype SessionState = Initializing | ShowingEntry | Active | GeneratingExit | ShowingExit

  /** `formattedTime`: under ten minutes a fixed label, otherwise the minutes rounded down to a multiple of ten. */
  function FormattedTime(elapsedSeconds: nat): string {
    var minutes := elapsedSeconds / 60;
    if minutes < 10 then "< 10 min" else NatToString((minutes / 10) * 10) + " min"
  }

  /**
   * From ten minutes on, the label shows the one multiple of ten that is at
   * most the elapsed minutes and within ten of them.
   */
  lemma FormattedTimeRounds(elapsedSeconds: nat, shown: nat)
    requires elapsedSeconds >= 600
    requires shown % 10 == 0 && shown <= elapsedSeconds / 60 < shown + 10
    ensures FormattedTime(elapsedSeconds) == NatToString(shown) + " min"
    ensures shown >= 10
  {
    var minutes := elapsedSeconds / 60;
    assert (minutes / 10) * 10 == shown;
  }

  lemma FormattedTimeShort(elapsedSeconds: nat)
    ensures FormattedTime(elapsedSeconds) == "< 10 min" <==> elapsedSeconds < 600
  {
    var minutes := elapsedSeconds / 60;
    if minutes >= 10 {
      var shownText := NatToString((minutes / 10) * 10);
      assert AllDigits(shownText);
      assert FormattedTime(elapsedSeconds)[0] == shownText[0];
      assert IsDigit(shownText[0]);
    }
  }

  /** `getTimeOfDayString` for the hour of the clock. */
  function TimeOfDay(hour: int): string {
    if hour < 12 then "Morning" else if hour < 17 then "Afternoon" else "Evening"
  }

  function DayPart(part: string): nat {
    if part == "Morning" then 0 else if part == "Afternoon" then 1 else 2
  }

  /** The part of the day never goes backwards as the hour advances, and each hour gets one of the three labels. */
  lemma TimeOfDayOrdered(h1: int, h2: int)
    requires h1 <= h2
    ensures DayPart(TimeOfDay(h1)) <= DayPart(TimeOfDay(h2))
    ensures TimeOfDay(h1) in {"Morning", "Afternoon", "Evening"}
    ensures TimeOfDay(h1) == "Afternoon" <==> 12 <= h1 < 17
  {
  }

  /** The indices of `0..n` not in `offsets`, ascending. */
  function KeptIndices(n: nat, offsets: set<int>): (k: seq<nat>)
    ensures forall i :: 0 <= i < |k| ==> k[i] < n && k[i] !in offsets
    ensures forall j :: 0 <= j < n && j !in offsets ==> j in k
    ensures forall i, j :: 0 <= i < j < |k| ==> k[i] < k[j]
  {
    if n == 0 then []
    else KeptIndices(n - 1, offsets) + (if n - 1 in offsets then [] else [n - 1])
  }

  /** `remove(atOffsets:)`: the elements whose index is not among the offsets, in their order. */
  function RemoveOffsets(s: seq<string>, offsets: set<int>): (r: seq<string>)
    ensures var k := KeptIndices(|s|, offsets);
      |r| == |k| && forall i :: 0 <= i < |k| ==> r[i] == s[k[i]]
  {
    var k := KeptIndices(|s|, offsets);
    seq(|k|, i requires 0 <= i < |k| => s[k[i]])
  }

  /** The offsets that fall inside `0..n`. */
  function OffsetsBelow(n: nat, offsets: set<int>): set<int> {
    set i | i in offsets && 0 <= i < n
  }

  lemma {:induction false} KeptCount(n: nat, offsets: set<int>)
    ensures |KeptIndices(n, offsets)| + |OffsetsBelow(n, offsets)| == n
    decreases n
  {
    if n == 0 {
      assert OffsetsBelow(0, offsets) == {};
    } else {
      KeptCount(n - 1, offsets);
      if n - 1 in offsets {
        assert OffsetsBelow(n, offsets) == OffsetsBelow(n - 1, offsets) + {n - 1};
      } else {
        assert OffsetsBelow(n, offsets) == OffsetsBelow(n - 1, offsets);
      }
    }
  }

  /** Removing a set of valid offsets shortens the list by exactly that many. */
  lemma RemoveOffsetsCount(n: nat, offsets: set<int>)
    requires forall i :: i in offsets ==> 0 <= i < n
    ensures |KeptIndices(n, offsets)| == n - |offsets|
  {
    KeptCount(n, offsets);
    assert OffsetsBelow(n, offsets) == offsets;
  }

  class SessionScreen {
    const instance: Instances.RoomInstance
    const definition: Definitions.RoomDefinition
    const guide: Guide.RoomGuideService

    var state: SessionState
    var elapsedTime: nat
    var isPaused: bool
    /** `timer != nil`. */
    var timer: bool
    var liveTimers: nat
    var observations: seq<string>
    var newObservation: string
    var transitionText: string
    /** How many times `onEnd` has been called. */
    var onEndCalls: nat
    /** The observations handed to `firebaseManager.addObservation`, in order. */
    var logged: seq<string>
    /** The observation lists of the `endSession` calls that succeeded. */
    var ended: seq<seq<string>>

    /** The timer field, when set, names one of the live timers. */
    predicate Valid()
      reads this
    {
      timer ==> liveTimers >= 1
    }

    /**
     * The intended discipline: at most one timer, and none before the
     * session becomes active.
     */
    predicate SingleTimer()
      reads this
    {
      Valid() && liveTimers <= 1 && (liveTimers == 1 <==> timer) &&
      (state in {Initializing, ShowingEntry} ==> liveTimers == 0)
    }

    constructor (instance: Instances.RoomInstance, definition: Definitions.RoomDefinition, guide: Guide.RoomGuideService)
      ensures this.instance == instance && this.definition == definition && this.guide == guide
      ensures state == Initializing && elapsedTime == 0 && !isPaused && !timer && liveTimers == 0
      ensures observations == [] && newObservation == "" && transitionText == ""
      ensures onEndCalls == 0 && logged == [] && ended == []
      ensures SingleTimer()
    {
      this.instance := instance;
      this.definition := definition;
      this.guide := guide;
      state := Initializing;
      elapsedTime := 0;
      isPaused := false;
      timer := false;
      liveTimers := 0;
      observations := [];
      newObservation := "";
      transitionText := "";
      onEndCalls := 0;
      logged := [];
      ended := [];
    }

    /** `onAppear` starts the entry transition only on the first appearance. */
    predicate LaunchesEntry()
      reads this
    {
      state == Initializing
    }

    /**
     * The continuation of `prepareEntryTransition`: the generated text, or
     * "Welcome." when generation failed, and the entry overlay, whatever
     * the state has become meanwhile.
     */
    method EntryReady(text: Option<string>)
      modifies this
      ensures transitionText == text.GetOr("Welcome.") && state == ShowingEntry
      ensures elapsedTime == old(elapsedTime) && isPaused == old(isPaused)
      ensures timer == old(timer) && liveTimers == old(liveTimers)
      ensures observations == old(observations) && newObservation == old(newObservation)
      ensures onEndCalls == old(onEndCalls) && logged == old(logged) && ended == old(ended)
    {
      transitionText := text.GetOr("Welcome.");
      state := ShowingEntry;
    }

    /** The continuation as evidently intended: it only moves on from `initializing`. */
    method EntryReadyGuarded(text: Option<string>)
      requires SingleTimer()
      modifies this
      ensures SingleTimer()
      ensures old(state) == Initializing ==> transitionText == text.GetOr("Welcome.") && state == ShowingEntry
      ensures old(state) != Initializing ==> transitionText == old(transitionText) && state == old(state)
      ensures elapsedTime == old(elapsedTime) && isPaused == old(isPaused)
      ensures timer == old(timer) && liveTimers == old(liveTimers)
      ensures observations == old(observations) && newObservation == old(newObservation)
      ensures onEndCalls == old(onEndCalls) && logged == old(logged) && ended == old(ended)
    {
      if state == Initializing {
        EntryReady(text);
      }
    }

    /** `startTimer`: a new scheduled timer; one the field held before keeps firing. */
    method StartTimer()
      modifies this
      ensures timer && liveTimers == old(liveTimers) + 1
      ensures state == old(state) && elapsedTime == old(elapsedTime) && isPaused == old(isPaused)
      ensures observations == old(observations) && newObservation == old(newObservation)
      ensures transitionText == old(transitionText)
      ensures onEndCalls == old(onEndCalls) && logged == old(logged) && ended == old(ended)
    {
      timer := true;
      liveTimers := liveTimers + 1;
    }

    /** `stopTimer`: invalidates the timer the field holds, if any. */
    method StopTimer()
      requires Valid()
      modifies this
      ensures !timer && liveTimers == old(liveTimers) - (if old(timer) then 1 else 0)
      ensures state == old(state) && elapsedTime == old(elapsedTime) && isPaused == old(isPaused)
      ensures observations == old(observations) && newObservation == old(newObservation)
      ensures transitionText == old(transitionText)
      ensures onEndCalls == old(onEndCalls) && logged == old(logged) && ended == old(ended)
    {
      if timer {
        liveTimers := liveTimers - 1;
      }
      timer := false;
    }

    /**
     * `startActiveSession`, the entry overlay's continue button: the overlay
     * is on screen in `initializing` and in `showingEntry`.
     */
    method StartActiveSession()
      requires state == Initializing || state == ShowingEntry
      modifies this, guide
      ensures state == Active && timer && liveTimers == old(liveTimers) + 1
      ensures guide.Guiding() && guide.messages == [Guide.Guide(Guide.Greeting(instance, definition))]
      ensures guide.currentInstance == Some(instance) && guide.currentDefinition == Some(definition)
      ensures guide.instances == old(guide.instances) && guide.writes == old(guide.writes)
      ensures guide.isLoading == old(guide.isLoading)
      ensures elapsedTime == old(elapsedTime) && isPaused == old(isPaused)
      ensures observations == old(observations) && newObservation == old(newObservation)
      ensures transitionText == old(transitionText)
      ensures onEndCalls == old(onEndCalls) && logged == old(logged) && ended == old(ended)
    {
      state := Active;
      StartTimer();
      guide.StartGuiding(instance, definition);
    }

    /** One live timer fires: a second is counted unless paused. */
    method Tick()
      requires liveTimers > 0
      modifies this
      ensures elapsedTime == old(elapsedTime) + (if old(isPaused) then 0 else 1)
      ensures state == old(state) && isPaused == old(isPaused) && timer == old(timer) && liveTimers == old(liveTimers)
      ensures observations == old(observations) && newObservation == old(newObservation)
      ensures transitionText == old(transitionText)
      ensures onEndCalls == old(onEndCalls) && logged == old(logged) && ended == old(ended)
    {
      if !isPaused {
        elapsedTime := elapsedTime + 1;
      }
    }

    /** `togglePause` flips the flag; the timers keep firing. */
    method TogglePause()
      modifies this
      ensures isPaused == !old(isPaused)
      ensures state == old(state) && elapsedTime == old(elapsedTime) && timer == old(timer) && liveTimers == old(liveTimers)
      ensures observations == old(observations) && newObservation == old(newObservation)
      ensures transitionText == old(transitionText)
      ensures onEndCalls == old(onEndCalls) && logged == old(logged) && ended == old(ended)
    {
      isPaused := !isPaused;
    }

    /** The add button is enabled only with some text typed. */
    predicate CanAddObservation()
      reads this
    {
      newObservation != ""
    }

    /** `addObservation`: the typed text is appended and logged, then the field is cleared. */
    method AddObservation()
      modifies this
      ensures observations == old(observations) + [old(newObservation)]
      ensures logged == old(logged) + [old(newObservation)]
      ensures newObservation == ""
      ensures state == old(state) && elapsedTime == old(elapsedTime) && isPaused == old(isPaused)
      ensures timer == old(timer) && liveTimers == old(liveTimers)
      ensures transitionText == old(transitionText) && onEndCalls == old(onEndCalls) && ended == old(ended)
    {
      observations := observations + [newObservation];
      logged := logged + [newObservation];
      newObservation := "";
    }

    /** The list's delete action removes exactly the rows at `offsets`. */
    method DeleteObservations(offsets: set<int>)
      requires forall i :: i in offsets ==> 0 <= i < |observations|
      modifies this
      ensures observations == RemoveOffsets(old(observations), offsets)
      ensures |observations| == |old(observations)| - |offsets|
      ensures state == old(state) && elapsedTime == old(elapsedTime) && isPaused == old(isPaused)
      ensures timer == old(timer) && liveTimers == old(liveTimers) && newObservation == old(newObservation)
      ensures transitionText == old(transitionText) && onEndCalls == old(onEndCalls)
      ensures logged == old(logged) && ended == old(ended)
    {
      RemoveOffsetsCount(|observations|, offsets);
      observations := RemoveOffsets(observations, offsets);
    }

    /**
     * `endSession`, the Complete button of the active screen. When the
     * Firebase call succeeds the observations are saved, the exit
     * transition starts and the timer stops; when it throws, `onEnd` is
     * called and nothing else changes.
     */
    method EndSession(succeeds: bool)
      requires Valid() && state == Active
      modifies this
      ensures Valid()
      ensures succeeds ==> (ended == old(ended) + [old(observations)] && state == GeneratingExit && !timer &&
        liveTimers == old(liveTimers) - (if old(timer) then 1 else 0) && onEndCalls == old(onEndCalls))
      ensures !succeeds ==> (ended == old(ended) && state == Active && timer == old(timer) &&
        liveTimers == old(liveTimers) && onEndCalls == old(onEndCalls) + 1)
      ensures elapsedTime == old(elapsedTime) && isPaused == old(isPaused)
      ensures observations == old(observations) && newObservation == old(newObservation)
      ensures transitionText == old(transitionText) && logged == old(logged)
    {
      if succeeds {
        ended := ended + [observations];
        state := GeneratingExit;
        StopTimer();
      } else {
        onEndCalls := onEndCalls + 1;
      }
    }

    /** The continuation of the exit task: the generated text, or "Session complete.". */
    method ExitReady(text: Option<string>)
      modifies this
      ensures transitionText == text.GetOr("Session complete.") && state == ShowingExit
      ensures elapsedTime == old(elapsedTime) && isPaused == old(isPaused)
      ensures timer == old(timer) && liveTimers == old(liveTimers)
      ensures observations == old(observations) && newObservation == old(newObservation)
      ensures onEndCalls == old(onEndCalls) && logged == old(logged) && ended == old(ended)
    {
      transitionText := text.GetOr("Session complete.");
      state := ShowingExit;
    }

    /** `finalizeSession`, the exit overlay's continue button: the guide stops and `onEnd` is called. */
    method FinalizeSession()
      requires state == GeneratingExit || state == ShowingExit
      modifies this, guide
      ensures onEndCalls == old(onEndCalls) + 1
      ensures !guide.Guiding() && guide.messages == []
      ensures guide.instances == old(guide.instances) && guide.writes == old(guide.writes)
      ensures guide.isLoading == old(guide.isLoading)
      ensures state == old(state) && elapsedTime == old(elapsedTime) && isPaused == old(isPaused)
      ensures timer == old(timer) && liveTimers == old(liveTimers)
      ensures observations == old(observations) && newObservation == old(newObservation)
      ensures transitionText == old(transitionText) && logged == old(logged) && ended == old(ended)
    {
      guide.EndGuiding();
      onEndCalls := onEndCalls + 1;
    }
  }

  /**
   * The as-written continuation at work: the user enters before the entry
   * text arrives, the text then brings the entry overlay back over the
   * active session, and entering again leaves two timers firing, so every
   * second is counted twice.
   */
  method EnterBeforeEntryText(instance: Instances.RoomInstance, definition: Definitions.RoomDefinition, text: Option<string>)
    returns (liveTimers: nat, returnedToEntry: bool)
    ensures liveTimers == 2 && returnedToEntry
  {
    var guide := new Guide.RoomGuideService([]);
    var screen := new SessionScreen(instance, definition, guide);
    screen.StartActiveSession();
    screen.EntryReady(text);
    returnedToEntry := screen.state == ShowingEntry;
    screen.StartActiveSession();
    liveTimers := screen.liveTimers;
  }

  /**
   * The same steps with the guarded continuation: the late text changes
   * nothing, the session stays active and one timer fires.
   */
  method EnterBeforeEntryTextGuarded(instance: Instances.RoomInstance, definition: Definitions.RoomDefinition, text: Option<string>)
    returns (liveTimers: nat, stillActive: bool)
    ensures liveTimers == 1 && stillActive
  {
    var guide := new Guide.RoomGuideService([]);
    var screen := new SessionScreen(instance, definition, guide);
    screen.StartActiveSession();
    assert screen.SingleTimer();
    screen.EntryReadyGuarded(text);
    stillActive := screen.state == Active;
    liveTimers := screen.liveTimers;
  }
}
