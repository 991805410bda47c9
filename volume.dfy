/**
 * The two volume dead-bands of MusicPlayer.jsx, in hundredths of full
 * volume: the slider writes to wavesurfer only when wavesurfer's own volume
 * is more than 0.01 away, and a volume polled from the YouTube player is
 * taken over only when it is more than 0.05 away from the current one.
 */
module Volume {

  function Distance(a: int, b: int): nat {
    if a >= b then a - b else b - a
  }

  /** `Math.abs(currentVol - volume) > 0.01`: wavesurfer needs the new volume. */
  predicate NeedsBackendWrite(backendVolume: int, volume: int) {
    Distance(backendVolume, volume) > 1
  }

  /** `onPlayerVolumeChange`: the volume after a poll reported `polled`. */
  function AcceptPolledVolume(volume: int, polled: int): (r: int)
    ensures r == volume || r == polled
    ensures Distance(r, polled) <= 5
    ensures Distance(polled, volume) <= 5 ==> r == volume
    ensures Distance(polled, volume) > 5 ==> r == polled
  {
    if Distance(polled, volume) > 5 then polled else volume
  }

  /** Once a polled value is taken over, polling the same value again changes nothing: no oscillation. */
  lemma PollSettles(volume: int, polled: int)
    ensures AcceptPolledVolume(AcceptPolledVolume(volume, polled), polled) == AcceptPolledVolume(volume, polled)
  {
  }
}
