/**
 * `MusicService.swift`: the playlist cursor and play/pause flags of the
 * room music player.
 *
 * The AVPlayer is abstracted to the track it was last handed (`loaded`);
 * seeking, the time observer, buffering and downloads are not part of this
 * model. `currentTime` is whatever the time observer last reported.
 */
module Music {
  import opened Text
  import Instances
  import Sessions

  type Track = Instances.RoomTrack

  class MusicService {
    var isPlaying: bool
    var currentTrackIndex: int
    var currentTime: real
    var currentPlaylist: seq<Track>
    var currentInstanceId: Option<string>
    /** The track the player was last given by `loadTrack`. */
    var loaded: Option<Track>

    /** The cursor is either at the start or on a track of the playlist. */
    predicate Valid()
      reads this
    {
      0 <= currentTrackIndex && (currentTrackIndex == 0 || currentTrackIndex < |currentPlaylist|)
    }

    /** `currentTrack`: the track under the cursor, or nil past the end. */
    function CurrentTrack(): (t: Option<Track>)
      reads this
      requires Valid()
      ensures t.None? <==> currentTrackIndex >= |currentPlaylist|
      ensures t.Some? ==> t.value == currentPlaylist[currentTrackIndex]
    {
      if currentTrackIndex < |currentPlaylist| then Some(currentPlaylist[currentTrackIndex]) else None
    }

    constructor ()
      ensures Valid() && !isPlaying && currentTrackIndex == 0 && currentTime == 0.0
      ensures currentPlaylist == [] && currentInstanceId.None? && loaded.None?
    {
      isPlaying := false;
      currentTrackIndex := 0;
      currentTime := 0.0;
      currentPlaylist := [];
      currentInstanceId := None;
      loaded := None;
    }

    /** `loadTrack`, as far as the cursor model sees it. */
    method LoadTrack(track: Track)
      modifies this
      ensures loaded == Some(track)
      ensures isPlaying == old(isPlaying) && currentTrackIndex == old(currentTrackIndex)
      ensures currentTime == old(currentTime) && currentPlaylist == old(currentPlaylist)
      ensures currentInstanceId == old(currentInstanceId)
    {
      loaded := Some(track);
    }

    /** `loadPlaylist`: replaces the playlist, records the instance and puts the cursor on the first track. */
    method LoadPlaylist(playlist: seq<Track>, instanceId: string)
      modifies this
      ensures Valid()
      ensures currentPlaylist == playlist && currentInstanceId == Some(instanceId) && currentTrackIndex == 0
      ensures isPlaying == old(isPlaying) && currentTime == old(currentTime)
      ensures loaded == if playlist != [] then Some(playlist[0]) else old(loaded)
    {
      currentPlaylist := playlist;
      currentInstanceId := Some(instanceId);
      currentTrackIndex := 0;
      if playlist != [] {
        LoadTrack(playlist[0]);
      }
    }

    method Play()
      modifies this
      ensures isPlaying
      ensures currentTrackIndex == old(currentTrackIndex) && currentTime == old(currentTime)
      ensures currentPlaylist == old(currentPlaylist) && currentInstanceId == old(currentInstanceId)
      ensures loaded == old(loaded)
    {
      isPlaying := true;
    }

    method Pause()
      modifies this
      ensures !isPlaying
      ensures currentTrackIndex == old(currentTrackIndex) && currentTime == old(currentTime)
      ensures currentPlaylist == old(currentPlaylist) && currentInstanceId == old(currentInstanceId)
      ensures loaded == old(loaded)
    {
      isPlaying := false;
    }

    /** `togglePlayback` flips the playing flag and nothing else. */
    method TogglePlayback()
      modifies this
      ensures isPlaying == !old(isPlaying)
      ensures currentTrackIndex == old(currentTrackIndex) && currentTime == old(currentTime)
      ensures currentPlaylist == old(currentPlaylist) && currentInstanceId == old(currentInstanceId)
      ensures loaded == old(loaded)
    {
      if isPlaying {
        Pause();
      } else {
        Play();
      }
    }

    /** `stop`: paused, and the reported time back at zero. */
    method Stop()
      modifies this
      ensures !isPlaying && currentTime == 0.0
      ensures currentTrackIndex == old(currentTrackIndex)
      ensures currentPlaylist == old(currentPlaylist) && currentInstanceId == old(currentInstanceId)
      ensures loaded == old(loaded)
    {
      Pause();
      currentTime := 0.0;
    }

    /**
     * `playNext`: moves to the following track and plays it; on the last
     * track (or with no tracks) it stops and goes back to the first track
     * without playing.
     */
    method PlayNext()
      requires Valid()
      modifies this
      ensures Valid()
      ensures currentPlaylist == old(currentPlaylist) && currentInstanceId == old(currentInstanceId)
      ensures old(currentTrackIndex) < |currentPlaylist| - 1 ==>
        currentTrackIndex == old(currentTrackIndex) + 1 && isPlaying && currentTime == old(currentTime) &&
        loaded == Some(currentPlaylist[currentTrackIndex])
      ensures old(currentTrackIndex) >= |currentPlaylist| - 1 ==>
        currentTrackIndex == 0 && !isPlaying && currentTime == 0.0 &&
        loaded == (if currentPlaylist != [] then Some(currentPlaylist[0]) else old(loaded))
    {
      if !(currentTrackIndex < |currentPlaylist| - 1) {
        Stop();
        currentTrackIndex := 0;
        if currentPlaylist != [] {
          LoadTrack(currentPlaylist[0]);
        }
        return;
      }
      currentTrackIndex := currentTrackIndex + 1;
      LoadTrack(currentPlaylist[currentTrackIndex]);
      Play();
    }

    /**
     * `playPrevious`: more than three seconds in, the player only rewinds
     * (nothing modelled changes); at the first track nothing happens;
     * otherwise the cursor steps back and plays.
     */
    method PlayPrevious()
      requires Valid()
      modifies this
      ensures Valid()
      ensures currentPlaylist == old(currentPlaylist) && currentInstanceId == old(currentInstanceId)
      ensures currentTime == old(currentTime)
      ensures old(currentTime) > 3.0 || old(currentTrackIndex) == 0 ==>
        currentTrackIndex == old(currentTrackIndex) && isPlaying == old(isPlaying) && loaded == old(loaded)
      ensures old(currentTime) <= 3.0 && old(currentTrackIndex) > 0 ==>
        currentTrackIndex == old(currentTrackIndex) - 1 && isPlaying &&
        loaded == Some(currentPlaylist[currentTrackIndex])
    {
      if currentTime > 3.0 {
        return;
      }
      if !(currentTrackIndex > 0) {
        return;
      }
      currentTrackIndex := currentTrackIndex - 1;
      LoadTrack(currentPlaylist[currentTrackIndex]);
      Play();
    }

    /** `playTrack(at:)`: an index outside the playlist is ignored. */
    method PlayTrack(index: int)
      requires Valid()
      modifies this
      ensures Valid()
      ensures currentPlaylist == old(currentPlaylist) && currentInstanceId == old(currentInstanceId)
      ensures currentTime == old(currentTime)
      ensures !(0 <= index < |currentPlaylist|) ==>
        currentTrackIndex == old(currentTrackIndex) && isPlaying == old(isPlaying) && loaded == old(loaded)
      ensures 0 <= index < |currentPlaylist| ==>
        currentTrackIndex == index && isPlaying && loaded == Some(currentPlaylist[index])
    {
      if !(index >= 0 && index < |currentPlaylist|) {
        return;
      }
      currentTrackIndex := index;
      LoadTrack(currentPlaylist[index]);
      Play();
    }
  }

  /** `formatTime`: "%d:%02d" of the whole minutes and the remaining seconds, both truncated. */
  function FormatTime(seconds: real): string {
    var whole := Sessions.Truncate(seconds);
    IntToString(TruncDiv(whole, 60)) + ":" + Pad2(TruncMod(whole, 60))
  }

  /**
   * For a non-negative time the label is "m:ss": the minutes in decimal, a
   * colon, and exactly two digits that read back as the seconds under a
   * minute, so the two parts give back the whole seconds.
   */
  lemma FormatTimeShape(seconds: real)
    requires seconds >= 0.0
    ensures var whole := seconds.Floor;
      var ss := Pad2(whole % 60);
      FormatTime(seconds) == NatToString(whole / 60) + ":" + ss &&
      |ss| == 2 && AllDigits(ss) && 60 * (whole / 60) + ParseDigits(ss) == whole
  {
    var whole := seconds.Floor;
    Pad2Value(whole % 60);
  }

  /** The label never depends on the fraction of a second. */
  lemma FormatTimeIgnoresFraction(seconds: real, n: nat)
    requires n as real <= seconds < n as real + 1.0
    ensures FormatTime(seconds) == FormatTime(n as real)
  {
  }
}
