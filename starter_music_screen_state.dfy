/**
 * MusicMate's `PlayerScreenState` as the starter project has it: no repeat
 * or shuffle, and only the five callbacks `onPlayPause`, `onSkipPrevious`,
 * `onSkipNext`, `onSeek` and `onSongClick`.
 */
module StarterMusicMateState {
  import opened Wrappers
  import opened Media
  import opened MusicMateControls

  datatype PlayerScreenState = PlayerScreenState(
    isPlaying: bool := false,
    isBuffering: bool := false,
    currentPosition: int := 0,
    bufferedPosition: int := 0,
    playlist: seq<Song> := [],
    currentSong: Option<Song> := None,
    /** The callbacks; the starter project never binds them, so they keep their no-op defaults. */
    controls: MusicControls := NoOpControls,
    error: Option<PlaybackError> := None)

  /** The defaults: idle, at position 0, nothing loaded, no-op callbacks, no error. */
  lemma DefaultState()
    ensures var s := PlayerScreenState();
      && !s.isPlaying && !s.isBuffering
      && s.currentPosition == 0 && s.bufferedPosition == 0
      && s.playlist == [] && s.currentSong == None
      && s.controls == NoOpControls && s.error == None
  {
  }
}
