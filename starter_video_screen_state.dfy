/** VideoMate's `PlayerScreenState` as the starter project has it: no speed and no aspect ratio. */
module StarterVideoMateState {
  import opened Wrappers
  import opened Media
  import opened StarterVideoMateControls

  datatype PlayerScreenState = PlayerScreenState(
    isPlaying: bool := false,
    isBuffering: bool := false,
    currentPosition: int := 0,
    bufferedPosition: int := 0,
    currentVideo: Option<Video> := None,
    playlist: seq<Video> := [],
    controlsListener: ControlsListener := NoOpListener,
    error: Option<PlaybackError> := None)

  /** The defaults: idle, at position 0, nothing loaded, the no-op listener, no error. */
  lemma DefaultState()
    ensures var s := PlayerScreenState();
      && !s.isPlaying && !s.isBuffering
      && s.currentPosition == 0 && s.bufferedPosition == 0
      && s.currentVideo == None && s.playlist == []
      && s.controlsListener == NoOpListener && s.error == None
  {
  }
}
