/**
 * The index arithmetic behind Next, Prev and the end of a track
 * (`handleNext`, `handlePrev`, `handleSongEnd` in MusicPlayer.jsx), and the
 * loop-mode button's cycle. An answer of `None` means the handler returns
 * without touching the player.
 */
module Playlist {
  import opened Wrappers

  datatype LoopMode = Off | All | One

  /** `toggleLoop`'s cycle: off, all, one, off. */
  function NextLoopMode(mode: LoopMode): (r: LoopMode)
    ensures r != mode
  {
    match mode
    case Off => All
    case All => One
    case One => Off
  }

  /** Three presses of the loop button restore the mode. */
  lemma LoopModeCycle(mode: LoopMode)
    ensures NextLoopMode(NextLoopMode(NextLoopMode(mode))) == mode
    ensures NextLoopMode(mode) == Off <==> mode == One
  {
  }

  /** `handleNext`: the index it passes to `playSong`, if any. */
  function NextIndex(len: nat, cur: int, mode: LoopMode): (r: Option<int>)
    ensures len == 0 ==> r == None
    ensures len > 0 && cur + 1 < len ==> r == Some(cur + 1)
    ensures len > 0 && cur + 1 >= len ==> r == (if mode == All then Some(0) else None)
    ensures -1 <= cur && r.Some? ==> 0 <= r.value < len
  {
    if len == 0 then None
    else if cur + 1 >= len then (if mode == All then Some(0) else None)
    else Some(cur + 1)
  }

  /** `handlePrev`: the index it passes to `playSong`, if any. */
  function PrevIndex(len: nat, cur: int, mode: LoopMode): (r: Option<int>)
    ensures len == 0 <==> r == None
    ensures len > 0 && cur - 1 >= 0 ==> r == Some(cur - 1)
    ensures len > 0 && cur - 1 < 0 ==> r == (if mode == All then Some(len - 1) else Some(0))
    ensures cur <= len && r.Some? ==> 0 <= r.value < len
  {
    if len == 0 then None
    else if cur - 1 < 0 then (if mode == All then Some(len - 1) else Some(0))
    else Some(cur - 1)
  }

  /** In `all` mode Next never gives up on a non-empty list: it wraps from the last index to 0. */
  lemma NextWrapsInAll(len: nat, cur: int)
    requires len > 0 && -1 <= cur < len
    ensures NextIndex(len, cur, All) == Some((cur + 1) % len)
  {
    if cur + 1 < len {
      assert (cur + 1) % len == cur + 1;
    } else {
      assert (cur + 1) % len == 0 by {
        assert cur + 1 == len;
      }
    }
  }

  /** In `off` and `one` modes Next at the last index does nothing, and Prev at the first index stays at 0. */
  lemma NoWrapOutsideAll(len: nat, mode: LoopMode)
    requires len > 0 && mode != All
    ensures NextIndex(len, len - 1, mode) == None
    ensures PrevIndex(len, 0, mode) == Some(0)
  {
  }

  /** What `handleSongEnd` does when a track finishes. */
  datatype EndAction =
    | Restart  // replay the same track (wavesurfer play, or YouTube seekTo(0) and playVideo)
    | Advance  // call handleNext
    | Stay     // do nothing at all

  /**
   * `handleSongEnd`'s decision. On YouTube `one` only restarts when the end
   * event carries a target player; otherwise it takes the `off` rule.
   */
  function EndOfTrack(len: nat, cur: int, mode: LoopMode, onYouTube: bool, hasEventTarget: bool): (r: EndAction)
    ensures r == Restart ==> mode == One
    ensures mode == All ==> r == Advance
    ensures r == Stay ==> mode != All && cur >= len - 1
    ensures mode == Off && cur < len - 1 ==> r == Advance
  {
    if mode == One && (!onYouTube || hasEventTarget) then Restart
    else if mode == All then Advance
    else if cur < len - 1 then Advance
    else Stay
  }

  /** The index the end of a track moves to, if it moves at all. */
  function EndOfTrackIndex(len: nat, cur: int, mode: LoopMode, onYouTube: bool, hasEventTarget: bool): (r: Option<int>)
    ensures -1 <= cur && r.Some? ==> 0 <= r.value < len
  {
    match EndOfTrack(len, cur, mode, onYouTube, hasEventTarget)
    case Advance => NextIndex(len, cur, mode)
    case _ => None
  }

  /** `one` on a local track, or on YouTube with an event target, replays the same track and moves nowhere. */
  lemma EndInOneRestarts(len: nat, cur: int, onYouTube: bool, hasEventTarget: bool)
    requires !onYouTube || hasEventTarget
    ensures EndOfTrack(len, cur, One, onYouTube, hasEventTarget) == Restart
    ensures EndOfTrackIndex(len, cur, One, onYouTube, hasEventTarget) == None
  {
  }

  /** `all` advances with wrap-around to index 0. */
  lemma EndInAllWraps(len: nat, cur: int, onYouTube: bool, hasEventTarget: bool)
    requires len > 0 && -1 <= cur < len
    ensures EndOfTrackIndex(len, cur, All, onYouTube, hasEventTarget) == Some((cur + 1) % len)
  {
    NextWrapsInAll(len, cur);
  }

  /**
   * `off` advances only while a later track exists; at the last track the end
   * does nothing at all (no stop, no index change).
   */
  lemma EndInOffStopsAtLast(len: nat, cur: int, onYouTube: bool, hasEventTarget: bool)
    requires -1 <= cur < len
    ensures cur < len - 1 ==> EndOfTrackIndex(len, cur, Off, onYouTube, hasEventTarget) == Some(cur + 1)
    ensures cur == len - 1 ==> EndOfTrack(len, cur, Off, onYouTube, hasEventTarget) == Stay
  {
  }

  /** On YouTube, `one` without an event target falls through to the `off` rule. */
  lemma EndInOneWithoutTargetIsOff(len: nat, cur: int)
    requires -1 <= cur < len
    ensures EndOfTrack(len, cur, One, true, false) == EndOfTrack(len, cur, Off, true, false)
    ensures EndOfTrackIndex(len, cur, One, true, false) == EndOfTrackIndex(len, cur, Off, true, false)
  {
  }
}
