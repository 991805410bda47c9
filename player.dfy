/**
 * The `MusicPlayer` component's state and handlers (MusicPlayer.jsx): the
 * playlist, the transport (play, pause, next, previous, end of track, skip,
 * keyboard), the loop-mode button, the A/B loop regions, imports, the
 * pending autoplay, the search box and the volume sync.
 *
 * The calls the handlers make into the audio backends (wavesurfer, the
 * YouTube iframe player, the regions plugin's `play`) are not executed: each
 * handler returns them, in order, as a sequence of `Action`s. Events the
 * backends raise (`play`, `pause`, `region-updated`, ...) are methods the
 * environment calls.
 */
module Player {
  import opened Wrappers
  import opened Text
  import opened Catalog
  import opened Search
  import opened Playlist
  import opened Regions
  import opened Volume

  /** A call into a backend, in the order the handler makes it. Times in ms, volume in hundredths. */
  datatype Action =
    | WaveSurferPlay
    | WaveSurferPlayPause
    | WaveSurferPause
    | WaveSurferSkip(deltaMs: int)
    | WaveSurferLoad(src: string)
    | WaveSurferZoomReset
    | WaveSurferSetVolume(volume: int)
    | YouTubePlayVideo
    | YouTubeSeekTo(ms: nat)
    | PlayRegion(id: nat)
    | Alert(message: string)

  /** The length of a skip: ten seconds. */
  const SkipMs: nat := 10000

  /** `Math.max(0, current - 10)`: the YouTube skip back never seeks before the start. */
  function SkipBackTarget(currentMs: nat): (r: nat)
    ensures r <= currentMs && currentMs - r <= SkipMs
    ensures currentMs >= SkipMs ==> r == currentMs - SkipMs
    ensures currentMs < SkipMs ==> r == 0
  {
    if currentMs >= SkipMs then currentMs - SkipMs else 0
  }

  /** What a key press asks for. */
  datatype KeyCommand = PlayPauseKey | SkipForwardKey | SkipBackwardKey

  /**
   * `handleKeyDown`'s dispatch on `e.code`, ignoring keys typed into an
   * INPUT or a TEXTAREA. The source tests ArrowRight and ArrowLeft twice;
   * the second pair of tests can never be reached.
   */
  function KeyCommandOf(tagName: string, code: string): (r: Option<KeyCommand>)
    ensures tagName == "INPUT" || tagName == "TEXTAREA" ==> r == None
    ensures r == Some(PlayPauseKey) <==> tagName != "INPUT" && tagName != "TEXTAREA" && code == "Space"
    ensures r == Some(SkipForwardKey) <==> tagName != "INPUT" && tagName != "TEXTAREA" && code == "ArrowRight"
    ensures r == Some(SkipBackwardKey) <==> tagName != "INPUT" && tagName != "TEXTAREA" && code == "ArrowLeft"
  {
    if tagName == "INPUT" || tagName == "TEXTAREA" then None
    else if code == "Space" then Some(PlayPauseKey)
    else if code == "ArrowRight" then Some(SkipForwardKey)
    else if code == "ArrowLeft" then Some(SkipBackwardKey)
    else if code == "ArrowRight" then Some(SkipForwardKey)
    else if code == "ArrowLeft" then Some(SkipBackwardKey)
    else None
  }

  /**
   * The autoplay test of wavesurfer's `ready` handler on a given selection:
   * a song is selected and it is not a YouTube video.
   */
  function ReadyAutoplay(songs: seq<Song>, index: int): (r: seq<Action>)
    ensures r == [] || r == [WaveSurferPlay]
    ensures r == [WaveSurferPlay] <==> 0 <= index < |songs| && songs[index].kind != YouTube
  {
    if index != -1 && 0 <= index < |songs| && songs[index].kind != YouTube then [WaveSurferPlay] else []
  }

  /**
   * The `ready` handler is registered once, when the component mounts, so
   * it tests the selection of the first render: no song, empty list. A local
   * song that is selected when its audio becomes ready is not autoplayed,
   * although the current selection asks for it.
   */
  lemma ReadyHandlerSeesMountState(songs: seq<Song>, index: int)
    requires 0 <= index < |songs| && songs[index].kind == Local
    ensures ReadyAutoplay([], -1) == []
    ensures ReadyAutoplay(songs, index) == [WaveSurferPlay]
  {
  }

  /**
   * The song wavesurfer's `finish` listener selects, as written. The listener
   * is bound once, at mount. `handleNext` reads the current playlist, index
   * and loop mode through refs, but the `playSong` it calls is the first
   * render's: its `index === currentSongIndex` test sees -1 and its
   * `index < songs.length` test sees the empty list.
   */
  function FinishIndexAsWritten(len: nat, cur: int, mode: LoopMode): (r: Option<int>)
    requires -1 <= cur
    ensures r == None
  {
    var mountIndex, mountLength := -1, 0;
    match EndOfTrackIndex(len, cur, mode, false, false)
    case Some(i) => if i == mountIndex || 0 <= i < mountLength then Some(i) else None
    case None => None
  }

  /**
   * At the end of a local track with a later song in the list, `off` and
   * `all` should move to that song, but the mount-bound listener selects
   * nothing.
   */
  lemma LocalEndNeverAdvances(len: nat, cur: int, mode: LoopMode)
    requires -1 <= cur < len - 1 && mode != One
    ensures EndOfTrackIndex(len, cur, mode, false, false) == Some(cur + 1)
    ensures FinishIndexAsWritten(len, cur, mode) == None
  {
  }

  const OfflineMessage := "You are offline. YouTube songs cannot be played."
  const MissingSourceMessage := "Error: Song source is missing."

  class MusicPlayer {
    var songs: seq<Song>
    var currentSongIndex: int
    var isPlaying: bool
    var isPlayerView: bool
    var loopMode: LoopMode
    var isYouTube: bool
    var youTubeVideoId: Option<string>
    /** `youTubePlayerRef.current` is set: the iframe player reported ready. */
    var youTubeReady: bool
    /** Drag-to-create regions is enabled on the waveform. */
    var dragSelection: bool
    var pendingPlayIndex: Option<nat>
    var regions: seq<Region>
    /** The id the regions plugin gives the next region it creates. */
    var nextRegionId: nat
    /** Volume in hundredths. */
    var volume: int
    var searchResults: seq<Song>
    var placeholder: string

    /**
     * The index stays within the playlist or is -1, at most one region
     * exists between events, and every region's id was handed out already.
     */
    ghost predicate Valid()
      reads this
    {
      -1 <= currentSongIndex < |songs|
      && |regions| <= 1
      && (forall k :: 0 <= k < |regions| ==> regions[k].id < nextRegionId)
      && 0 <= volume <= 100
    }

    /** The component's first render: an empty playlist, nothing selected, volume 0.8. */
    constructor ()
      ensures Valid()
      ensures songs == [] && currentSongIndex == -1 && !isPlaying && !isPlayerView
      ensures loopMode == Off && !isYouTube && youTubeVideoId == None && !youTubeReady
      ensures !dragSelection && pendingPlayIndex == None && regions == [] && volume == 80
      ensures searchResults == [] && placeholder == ""
    {
      songs, currentSongIndex, isPlaying, isPlayerView := [], -1, false, false;
      loopMode, isYouTube, youTubeVideoId, youTubeReady := Off, false, None, false;
      dragSelection, pendingPlayIndex, regions, nextRegionId := false, None, [], 0;
      volume, searchResults, placeholder := 80, [], "";
    }

    // ----- transport -----

    /**
     * What `playSong(index)` does. On the current index it shows the player
     * and, if paused, starts the backend and sets playing; on another index
     * inside the playlist it only selects it (loading is the effect on the
     * index); any other index changes nothing.
     */
    twostate predicate PlayedSong(index: int, actions: seq<Action>)
      reads this
    {
      if index == old(currentSongIndex) then
        currentSongIndex == old(currentSongIndex) && isPlayerView && isPlaying
        && actions == (if old(isPlaying) then []
                       else if old(isYouTube) && old(youTubeReady) then [YouTubePlayVideo]
                       else [WaveSurferPlay])
      else
        isPlaying == old(isPlaying) && isPlayerView == old(isPlayerView) && actions == []
        && currentSongIndex == (if 0 <= index < |songs| then index else old(currentSongIndex))
    }

    /** Nothing the transport handlers may change has changed, and no backend call was made. */
    twostate predicate TransportUnchanged(actions: seq<Action>)
      reads this
    {
      currentSongIndex == old(currentSongIndex) && isPlaying == old(isPlaying)
      && isPlayerView == old(isPlayerView) && actions == []
    }

    method PlaySong(index: int) returns (actions: seq<Action>)
      requires Valid()
      modifies this`currentSongIndex, this`isPlaying, this`isPlayerView
      ensures Valid()
      ensures PlayedSong(index, actions)
    {
      actions := [];
      if index == currentSongIndex {
        isPlayerView := true;
        if !isPlaying {
          if isYouTube && youTubeReady {
            actions := [YouTubePlayVideo];
          } else {
            actions := [WaveSurferPlay];
          }
          isPlaying := true;
        }
        return;
      }
      if 0 <= index < |songs| {
        currentSongIndex := index;
      }
    }

    /** `handleNext`: plays the index `NextIndex` chooses, or does nothing. */
    method HandleNext() returns (actions: seq<Action>)
      requires Valid()
      modifies this`currentSongIndex, this`isPlaying, this`isPlayerView
      ensures Valid()
      ensures NextIndex(|songs|, old(currentSongIndex), loopMode).None? ==> TransportUnchanged(actions)
      ensures NextIndex(|songs|, old(currentSongIndex), loopMode).Some? ==>
        PlayedSong(NextIndex(|songs|, old(currentSongIndex), loopMode).value, actions)
    {
      match NextIndex(|songs|, currentSongIndex, loopMode)
      case None => actions := [];
      case Some(i) => actions := PlaySong(i);
    }

    /** `handlePrev`: plays the index `PrevIndex` chooses, or does nothing on an empty list. */
    method HandlePrev() returns (actions: seq<Action>)
      requires Valid()
      modifies this`currentSongIndex, this`isPlaying, this`isPlayerView
      ensures Valid()
      ensures |songs| == 0 ==> TransportUnchanged(actions)
      ensures |songs| > 0 ==> PlayedSong(PrevIndex(|songs|, old(currentSongIndex), loopMode).value, actions)
    {
      match PrevIndex(|songs|, currentSongIndex, loopMode)
      case None => actions := [];
      case Some(i) => actions := PlaySong(i);
    }

    /**
     * `handlePlayPause`: with nothing selected it plays the first song; on
     * YouTube it flips `isPlaying` (the iframe player follows the prop);
     * otherwise it toggles wavesurfer, whose `play`/`pause` events update
     * `isPlaying` later.
     */
    twostate predicate PlayPaused(actions: seq<Action>)
      reads this
    {
      if old(currentSongIndex) == -1 && |songs| > 0 then PlayedSong(0, actions)
      else if old(isYouTube) then
        isPlaying == !old(isPlaying) && currentSongIndex == old(currentSongIndex)
        && isPlayerView == old(isPlayerView) && actions == []
      else if old(currentSongIndex) != -1 then
        isPlaying == old(isPlaying) && currentSongIndex == old(currentSongIndex)
        && isPlayerView == old(isPlayerView) && actions == [WaveSurferPlayPause]
      else TransportUnchanged(actions)
    }

    method HandlePlayPause() returns (actions: seq<Action>)
      requires Valid()
      modifies this`currentSongIndex, this`isPlaying, this`isPlayerView
      ensures Valid()
      ensures PlayPaused(actions)
    {
      if currentSongIndex == -1 && |songs| > 0 {
        actions := PlaySong(0);
      } else if isYouTube {
        isPlaying := !isPlaying;
        actions := [];
      } else if currentSongIndex != -1 {
        actions := [WaveSurferPlayPause];
      } else {
        actions := [];
      }
    }

    /**
     * `handleSongEnd`. `onYouTube` is the `isYouTube` the handler was bound
     * with (the YouTube player's `onEnd`, or wavesurfer's `finish`), and
     * `hasEventTarget` whether the end event carries the YouTube player.
     */
    method HandleSongEnd(onYouTube: bool, hasEventTarget: bool) returns (actions: seq<Action>)
      requires Valid()
      modifies this`currentSongIndex, this`isPlaying, this`isPlayerView
      ensures Valid()
      ensures EndOfTrack(|songs|, old(currentSongIndex), loopMode, onYouTube, hasEventTarget) == Restart ==>
        currentSongIndex == old(currentSongIndex) && isPlaying == old(isPlaying) && isPlayerView == old(isPlayerView)
        && actions == (if onYouTube then [YouTubeSeekTo(0), YouTubePlayVideo] else [WaveSurferPlay])
      ensures EndOfTrack(|songs|, old(currentSongIndex), loopMode, onYouTube, hasEventTarget) == Stay ==>
        TransportUnchanged(actions)
      ensures EndOfTrackIndex(|songs|, old(currentSongIndex), loopMode, onYouTube, hasEventTarget).Some? ==>
        PlayedSong(EndOfTrackIndex(|songs|, old(currentSongIndex), loopMode, onYouTube, hasEventTarget).value, actions)
      ensures (EndOfTrack(|songs|, old(currentSongIndex), loopMode, onYouTube, hasEventTarget) == Advance
               && EndOfTrackIndex(|songs|, old(currentSongIndex), loopMode, onYouTube, hasEventTarget).None?) ==>
        TransportUnchanged(actions)
    {
      match EndOfTrack(|songs|, currentSongIndex, loopMode, onYouTube, hasEventTarget)
      case Restart =>
        actions := if onYouTube then [YouTubeSeekTo(0), YouTubePlayVideo] else [WaveSurferPlay];
      case Advance =>
        actions := HandleNext();
      case Stay =>
        actions := [];
    }

    /** `handleSkipForward`: ten seconds on from where the active backend is. */
    method HandleSkipForward(youTubeTimeMs: nat) returns (actions: seq<Action>)
      ensures isYouTube && youTubeReady ==> actions == [YouTubeSeekTo(youTubeTimeMs + SkipMs)]
      ensures !(isYouTube && youTubeReady) ==> actions == [WaveSurferSkip(SkipMs)]
    {
      if isYouTube && youTubeReady {
        actions := [YouTubeSeekTo(youTubeTimeMs + SkipMs)];
      } else {
        actions := [WaveSurferSkip(SkipMs)];
      }
    }

    /** `handleSkipBackward`: ten seconds back, and on YouTube never before the start. */
    method HandleSkipBackward(youTubeTimeMs: nat) returns (actions: seq<Action>)
      ensures isYouTube && youTubeReady ==>
        actions == [YouTubeSeekTo(SkipBackTarget(youTubeTimeMs))]
      ensures !(isYouTube && youTubeReady) ==> actions == [WaveSurferSkip(-(SkipMs as int))]
    {
      if isYouTube && youTubeReady {
        actions := [YouTubeSeekTo(SkipBackTarget(youTubeTimeMs))];
      } else {
        actions := [WaveSurferSkip(-(SkipMs as int))];
      }
    }

    /** `handleKeyDown`: Space plays or pauses, the arrows skip; keys typed into a field do nothing. */
    method HandleKeyDown(tagName: string, code: string, youTubeTimeMs: nat) returns (actions: seq<Action>)
      requires Valid()
      modifies this`currentSongIndex, this`isPlaying, this`isPlayerView
      ensures Valid()
      ensures KeyCommandOf(tagName, code) == None ==> TransportUnchanged(actions)
      ensures KeyCommandOf(tagName, code) == Some(PlayPauseKey) ==> PlayPaused(actions)
      ensures KeyCommandOf(tagName, code) == Some(SkipForwardKey) ==>
        currentSongIndex == old(currentSongIndex) && isPlaying == old(isPlaying) && isPlayerView == old(isPlayerView)
        && actions == (if isYouTube && youTubeReady then [YouTubeSeekTo(youTubeTimeMs + SkipMs)]
                       else [WaveSurferSkip(SkipMs)])
      ensures KeyCommandOf(tagName, code) == Some(SkipBackwardKey) ==>
        currentSongIndex == old(currentSongIndex) && isPlaying == old(isPlaying) && isPlayerView == old(isPlayerView)
        && actions == (if isYouTube && youTubeReady then [YouTubeSeekTo(SkipBackTarget(youTubeTimeMs))]
                       else [WaveSurferSkip(-(SkipMs as int))])
    {
      match KeyCommandOf(tagName, code)
      case None => actions := [];
      case Some(PlayPauseKey) => actions := HandlePlayPause();
      case Some(SkipForwardKey) => actions := HandleSkipForward(youTubeTimeMs);
      case Some(SkipBackwardKey) => actions := HandleSkipBackward(youTubeTimeMs);
    }

    /** wavesurfer's `play` and `pause` events. */
    method OnWaveSurferPlay()
      modifies this`isPlaying
      ensures isPlaying
    {
      isPlaying := true;
    }

    method OnWaveSurferPause()
      modifies this`isPlaying
      ensures !isPlaying
    {
      isPlaying := false;
    }

    /** wavesurfer's `ready` event as registered: it sees the mount-time selection and never autoplays. */
    method OnWaveSurferReadyAsWritten() returns (actions: seq<Action>)
      ensures actions == ReadyAutoplay([], -1)
      ensures actions == []
    {
      actions := ReadyAutoplay([], -1);
    }

    /** wavesurfer's `ready` event on the current selection: a selected local or demo song starts playing. */
    method OnWaveSurferReady() returns (actions: seq<Action>)
      requires Valid()
      ensures actions == ReadyAutoplay(songs, currentSongIndex)
      ensures actions == [WaveSurferPlay] <==> currentSongIndex != -1 && songs[currentSongIndex].kind != YouTube
      ensures actions != [WaveSurferPlay] ==> actions == []
    {
      actions := ReadyAutoplay(songs, currentSongIndex);
    }

    /** The effect on `[currentSongIndex, isPlaying]`: once something plays or is selected, the player view opens. */
    method RevealPlayer()
      modifies this`isPlayerView
      ensures isPlayerView == (old(isPlayerView) || isPlaying || currentSongIndex != -1)
    {
      if isPlaying || currentSongIndex != -1 {
        isPlayerView := true;
      }
    }

    /** `onPlayerReady`: the YouTube player can now be driven directly. */
    method OnPlayerReady()
      modifies this`youTubeReady
      ensures youTubeReady
    {
      youTubeReady := true;
    }

    // ----- loop mode and A/B regions -----

    /** `toggleLoop`: off, all, one, off; leaving `one` also resets the zoom and clears every region. */
    method ToggleLoop() returns (actions: seq<Action>)
      requires Valid()
      modifies this`loopMode, this`regions
      ensures Valid()
      ensures loopMode == NextLoopMode(old(loopMode))
      ensures loopMode == Off ==> regions == [] && actions == [WaveSurferZoomReset]
      ensures loopMode != Off ==> regions == old(regions) && actions == []
    {
      loopMode := NextLoopMode(loopMode);
      if loopMode == Off {
        actions := [WaveSurferZoomReset];
        regions := [];
      } else {
        actions := [];
      }
    }

    /**
     * The regions plugin creating a region (from `addRegion` or a drag on
     * the waveform) and the `region-created` handler that follows: every
     * other region is removed, one at a time, the new one loops and plays.
     */
    method CreateRegion(start: nat, end: nat) returns (id: nat, actions: seq<Action>)
      requires Valid()
      modifies this`regions, this`nextRegionId
      ensures Valid()
      ensures id == old(nextRegionId) && nextRegionId == id + 1
      ensures regions == [Region(id, start, end, true)]
      ensures actions == [PlayRegion(id)]
    {
      id := nextRegionId;
      nextRegionId := nextRegionId + 1;
      var created := Region(id, start, end, false);
      var all := regions + [created];
      AppendNewest(regions, created);
      var rs := RemoveOthers(all, id);
      regions := SetLoop(rs, id);
      assert regions[0] == created.(loop := true);
      actions := [PlayRegion(id)];
    }

    /**
     * The `forEach` of the `region-created` handler over the plugin's list
     * `all`: each region whose id is not `id` is removed in turn.
     */
    static method RemoveOthers(all: seq<Region>, id: nat) returns (rs: seq<Region>)
      requires IdsIncreasing(all)
      ensures rs == OnlyId(all, id)
    {
      rs := all;
      var i := 0;
      assert all[..0] == [];
      while i < |all|
        invariant 0 <= i <= |all|
        invariant rs == OnlyId(all[..i], id) + all[i..]
      {
        if all[i].id != id {
          RemoveOtherStep(all, i, id);
          rs := RemoveId(rs, all[i].id);
        } else {
          KeepSelfStep(all, i, id);
        }
        i := i + 1;
      }
      assert all[..i] == all;
    }

    /** A drag on the waveform creates a region only while drag selection is enabled. */
    method OnDragSelection(start: nat, end: nat) returns (actions: seq<Action>)
      requires Valid()
      modifies this`regions, this`nextRegionId
      ensures Valid()
      ensures !dragSelection ==> regions == old(regions) && nextRegionId == old(nextRegionId) && actions == []
      ensures dragSelection ==>
        regions == [Region(old(nextRegionId), start, end, true)] && actions == [PlayRegion(old(nextRegionId))]
    {
      actions := [];
      if dragSelection {
        var id;
        id, actions := CreateRegion(start, end);
      }
    }

    /**
     * `region-updated`: the user moved or resized the region to `[start, end]`;
     * it keeps those bounds and keeps looping.
     */
    method OnRegionUpdated(id: nat, start: nat, end: nat)
      requires Valid()
      modifies this`regions
      ensures Valid()
      ensures regions == MoveRegion(old(regions), id, start, end)
      ensures |old(regions)| == 1 && old(regions)[0].id == id ==> regions == [Region(id, start, end, true)]
      ensures !(|old(regions)| == 1 && old(regions)[0].id == id) ==> regions == old(regions)
    {
      MoveSingle(regions, id, start, end);
      regions := MoveRegion(regions, id, start, end);
    }

    /** `region-double-clicked`: the region is removed. */
    method OnRegionDoubleClicked(id: nat)
      requires Valid()
      modifies this`regions
      ensures Valid()
      ensures regions == (if |old(regions)| == 1 && old(regions)[0].id == id then [] else old(regions))
    {
      RemoveFromSingle(regions, id);
      regions := RemoveId(regions, id);
    }

    /** `region-out`: playback left the region, so it is played again. */
    method OnRegionOut(id: nat) returns (actions: seq<Action>)
      ensures actions == [PlayRegion(id)]
    {
      actions := [PlayRegion(id)];
    }

    /**
     * `handleSetA`, at wavesurfer time `currentMs`: moves the existing
     * region's start only, or creates [t, t + 10 s]. Does nothing on YouTube.
     */
    method HandleSetA(currentMs: nat) returns (actions: seq<Action>)
      requires Valid()
      modifies this`regions, this`nextRegionId
      ensures Valid()
      ensures old(isYouTube) ==> regions == old(regions) && nextRegionId == old(nextRegionId) && actions == []
      ensures !isYouTube && |old(regions)| > 0 ==>
        regions == [old(regions)[0].(start := currentMs)] && nextRegionId == old(nextRegionId) && actions == []
      ensures !isYouTube && |old(regions)| == 0 ==>
        regions == [Region(old(nextRegionId), currentMs, currentMs + SkipMs, true)]
        && actions == [PlayRegion(old(nextRegionId))]
    {
      actions := [];
      if isYouTube {
        return;
      }
      if |regions| > 0 {
        regions := regions[0 := regions[0].(start := currentMs)];
      } else {
        var id;
        id, actions := CreateRegion(currentMs, currentMs + SkipMs);
      }
    }

    /**
     * `handleSetB`, at wavesurfer time `currentMs`: on an existing region it
     * moves the end there and plays it when that is after the start, and
     * otherwise does nothing; with no region it creates [0, t] and plays it.
     * Does nothing on YouTube.
     */
    method HandleSetB(currentMs: nat) returns (actions: seq<Action>)
      requires Valid()
      modifies this`regions, this`nextRegionId
      ensures Valid()
      ensures old(isYouTube) ==> regions == old(regions) && nextRegionId == old(nextRegionId) && actions == []
      ensures !isYouTube && |old(regions)| > 0 && currentMs > old(regions)[0].start ==>
        regions == [old(regions)[0].(end := currentMs)] && nextRegionId == old(nextRegionId)
        && actions == [PlayRegion(old(regions)[0].id)]
      ensures !isYouTube && |old(regions)| > 0 && currentMs <= old(regions)[0].start ==>
        regions == old(regions) && nextRegionId == old(nextRegionId) && actions == []
      ensures !isYouTube && |old(regions)| == 0 ==>
        regions == [Region(old(nextRegionId), 0, currentMs, true)]
        && actions == [PlayRegion(old(nextRegionId)), PlayRegion(old(nextRegionId))]
    {
      actions := [];
      if isYouTube {
        return;
      }
      if |regions| > 0 {
        if currentMs > regions[0].start {
          regions := regions[0 := regions[0].(end := currentMs)];
          actions := [PlayRegion(regions[0].id)];
        }
      } else {
        var id, created := CreateRegion(0, currentMs);
        actions := created + [PlayRegion(regions[0].id)];
      }
    }

    /** `clearAB`: every region goes and the zoom is reset. */
    method ClearAB() returns (actions: seq<Action>)
      requires Valid()
      modifies this`regions
      ensures Valid()
      ensures regions == [] && actions == [WaveSurferZoomReset]
    {
      regions := [];
      actions := [WaveSurferZoomReset];
    }

    /** The Loop Clear button: every region goes, the zoom stays. */
    method ClearRegions()
      requires Valid()
      modifies this`regions
      ensures Valid()
      ensures regions == []
    {
      regions := [];
    }

    // ----- playlist -----

    /**
     * `handleFileSelect`: the audio files, sorted by title, are appended;
     * the first of them is marked for autoplay. An empty selection, or one
     * with no audio file, changes nothing.
     */
    method ImportFiles(files: seq<PickedFile>)
      requires Valid()
      modifies this`songs, this`pendingPlayIndex
      ensures Valid()
      ensures ImportedSongs(files) == [] ==> songs == old(songs) && pendingPlayIndex == old(pendingPlayIndex)
      ensures ImportedSongs(files) != [] ==>
        songs == old(songs) + ImportedSongs(files) && pendingPlayIndex == Some(|old(songs)|)
    {
      if |files| == 0 {
        return;
      }
      var newSongs := ImportedSongs(files);
      if |newSongs| > 0 {
        pendingPlayIndex := Some(|songs|);
        songs := songs + newSongs;
      }
    }

    /** `loadOnlineMusic`: appends the demo songs unless an online song is already listed. */
    method LoadOnlineMusic()
      requires Valid()
      modifies this`songs
      ensures Valid()
      ensures songs == WithDemoSongs(old(songs))
    {
      songs := WithDemoSongs(songs);
    }

    /**
     * A click on a search result: if a song with the same title is playing
     * it resumes (shows the player and sets playing, with no backend call);
     * otherwise the result is appended and marked for autoplay.
     */
    method SelectSearchResult(song: Song)
      requires Valid()
      modifies this`songs, this`pendingPlayIndex, this`isPlaying, this`isPlayerView
      ensures Valid()
      ensures old(currentSongIndex) != -1 && old(songs)[old(currentSongIndex)].title == song.title ==>
        isPlaying && isPlayerView && songs == old(songs) && pendingPlayIndex == old(pendingPlayIndex)
      ensures !(old(currentSongIndex) != -1 && old(songs)[old(currentSongIndex)].title == song.title) ==>
        songs == old(songs) + [song] && pendingPlayIndex == Some(|old(songs)|)
        && isPlaying == old(isPlaying) && isPlayerView == old(isPlayerView)
    {
      if currentSongIndex != -1 && songs[currentSongIndex].title == song.title {
        isPlayerView := true;
        isPlaying := true;
        return;
      }
      pendingPlayIndex := Some(|songs|);
      songs := songs + [song];
    }

    /** The effect on `songs`: a pending index that now exists is played once and cleared. */
    method PendingAutoplay() returns (actions: seq<Action>)
      requires Valid()
      modifies this`pendingPlayIndex, this`currentSongIndex, this`isPlaying, this`isPlayerView
      ensures Valid()
      ensures old(pendingPlayIndex).Some? && old(pendingPlayIndex).value < |songs| ==>
        pendingPlayIndex == None && PlayedSong(old(pendingPlayIndex).value, actions)
      ensures !(old(pendingPlayIndex).Some? && old(pendingPlayIndex).value < |songs|) ==>
        pendingPlayIndex == old(pendingPlayIndex) && TransportUnchanged(actions)
    {
      actions := [];
      if pendingPlayIndex.Some? && pendingPlayIndex.value < |songs| {
        var index := pendingPlayIndex.value;
        pendingPlayIndex := None;
        actions := PlaySong(index);
      }
    }

    /**
     * The effect on `currentSongIndex`: prepares the selected song. Drag
     * selection is enabled for every song but a YouTube one. A YouTube song
     * needs the network (`online`): it is handed to the iframe player,
     * wavesurfer is paused and playing is set; offline it only alerts and
     * stops. Any other song is loaded into wavesurfer, or alerts when it has
     * no source.
     */
    method LoadCurrentSong(online: bool) returns (actions: seq<Action>)
      requires Valid()
      modifies this`dragSelection, this`isYouTube, this`youTubeVideoId, this`isPlaying
      ensures Valid()
      ensures old(currentSongIndex) == -1 ==>
        dragSelection == old(dragSelection) && isYouTube == old(isYouTube)
        && youTubeVideoId == old(youTubeVideoId) && isPlaying == old(isPlaying) && actions == []
      ensures currentSongIndex != -1 ==> dragSelection == (songs[currentSongIndex].kind != YouTube)
      ensures currentSongIndex != -1 && songs[currentSongIndex].kind == YouTube && !online ==>
        !isPlaying && isYouTube == old(isYouTube) && youTubeVideoId == old(youTubeVideoId)
        && actions == [Alert(OfflineMessage)]
      ensures currentSongIndex != -1 && songs[currentSongIndex].kind == YouTube && online ==>
        isPlaying && isYouTube && youTubeVideoId == Some(songs[currentSongIndex].src)
        && actions == [WaveSurferPause]
      ensures currentSongIndex != -1 && songs[currentSongIndex].kind != YouTube ==>
        !isYouTube && youTubeVideoId == None && isPlaying == old(isPlaying)
        && actions == (if songs[currentSongIndex].src == "" then [Alert(MissingSourceMessage)]
                       else [WaveSurferLoad(songs[currentSongIndex].src)])
    {
      actions := [];
      if currentSongIndex == -1 {
        return;
      }
      var song := songs[currentSongIndex];
      dragSelection := song.kind != YouTube;
      if song.kind == YouTube {
        if !online {
          actions := [Alert(OfflineMessage)];
          isPlaying := false;
          return;
        }
        isYouTube := true;
        youTubeVideoId := Some(song.src);
        actions := [WaveSurferPause];
        isPlaying := true;
      } else {
        isYouTube := false;
        youTubeVideoId := None;
        if song.src == "" {
          actions := [Alert(MissingSourceMessage)];
        } else {
          actions := [WaveSurferLoad(song.src)];
        }
      }
    }

    // ----- search -----

    /**
     * `searchMusic` for the query `query`, with the raw key variable
     * `rawKeys`; `respond(q, key)` is what the search request with that key
     * returns. A blank query does nothing; without keys only the status
     * line changes; otherwise the results are the local matches followed by
     * the first succeeding key's videos (or the error entry).
     */
    method SearchMusic(query: string, rawKeys: string, respond: (string, string) -> Response)
      requires Valid()
      modifies this`searchResults, this`placeholder
      ensures Valid()
      ensures IsBlank(query) ==> searchResults == old(searchResults) && placeholder == old(placeholder)
      ensures !IsBlank(query) && ParseKeys(rawKeys) == [] ==>
        searchResults == old(searchResults) && placeholder == MissingKeysMessage
      ensures !IsBlank(query) && ParseKeys(rawKeys) != [] ==>
        (searchResults, placeholder) == SearchOutcome(LocalMatches(songs, query), ParseKeys(rawKeys), query, respond)
    {
      if IsBlank(query) {
        return;
      }
      placeholder := SearchingMessage;
      var local := LocalMatches(songs, query);
      var keys := ParseKeys(rawKeys);
      if |keys| == 0 {
        placeholder := MissingKeysMessage;
        return;
      }
      searchResults, placeholder := SearchYouTube(local, keys, query, respond);
    }

    /**
     * The debounced effect on `searchQuery`, once the delay has passed: a
     * query with text searches, a blank one clears the results.
     */
    method OnSearchQueryChanged(query: string, rawKeys: string, respond: (string, string) -> Response)
      requires Valid()
      modifies this`searchResults, this`placeholder
      ensures Valid()
      ensures IsBlank(query) ==> searchResults == [] && placeholder == old(placeholder)
      ensures !IsBlank(query) && ParseKeys(rawKeys) == [] ==>
        searchResults == old(searchResults) && placeholder == MissingKeysMessage
      ensures !IsBlank(query) && ParseKeys(rawKeys) != [] ==>
        (searchResults, placeholder) == SearchOutcome(LocalMatches(songs, query), ParseKeys(rawKeys), query, respond)
    {
      if IsBlank(query) {
        searchResults := [];
      } else {
        SearchMusic(query, rawKeys, respond);
      }
    }

    // ----- volume -----

    /** The effect on `volume`: wavesurfer is told the volume only when its own is more than 0.01 away. */
    method SyncBackendVolume(backendVolume: int) returns (actions: seq<Action>)
      ensures NeedsBackendWrite(backendVolume, volume) ==> actions == [WaveSurferSetVolume(volume)]
      ensures !NeedsBackendWrite(backendVolume, volume) ==> actions == []
    {
      actions := [];
      if NeedsBackendWrite(backendVolume, volume) {
        actions := [WaveSurferSetVolume(volume)];
      }
    }

    /** `onPlayerVolumeChange`: a polled YouTube volume is taken over only past the 0.05 dead-band. */
    method OnPlayerVolumeChange(polled: int)
      requires Valid() && 0 <= polled <= 100
      modifies this`volume
      ensures Valid()
      ensures volume == AcceptPolledVolume(old(volume), polled)
    {
      volume := AcceptPolledVolume(volume, polled);
    }
  }
}
