/**
 * VideoMate's `PlayerScreenState` (final project): the immutable snapshot
 * the player screen renders, with its defaults, and the vocabulary the view
 * model uses to say which fields an update may change.
 */
module VideoMateState {
  import opened Wrappers
  import opened Media
  import opened VideoMateControls

  datatype PlayerScreenState = PlayerScreenState(
    isPlaying: bool := false,
    isBuffering: bool := false,
    currentPosition: int := 0,
    bufferedPosition: int := 0,
    currentVideo: Option<Video> := None,
    currentSpeed: int := 1,
    playlist: seq<Video> := [],
    controlsListener: ControlsListener := NoOpListener,
    /** `16 / 9f`, kept as the exact ratio. */
    videoAspectRatio: real := 16.0 / 9.0,
    error: Option<PlaybackError> := None)

  /** The snapshot's fields, by name. */
  datatype Field =
    | IsPlaying | IsBuffering | CurrentPosition | BufferedPosition | CurrentVideo
    | CurrentSpeed | Playlist | Listener | VideoAspectRatio | Error

  predicate Unchanged(s: PlayerScreenState, s': PlayerScreenState, f: Field)
  {
    match f
    case IsPlaying => s'.isPlaying == s.isPlaying
    case IsBuffering => s'.isBuffering == s.isBuffering
    case CurrentPosition => s'.currentPosition == s.currentPosition
    case BufferedPosition => s'.bufferedPosition == s.bufferedPosition
    case CurrentVideo => s'.currentVideo == s.currentVideo
    case CurrentSpeed => s'.currentSpeed == s.currentSpeed
    case Playlist => s'.playlist == s.playlist
    case Listener => s'.controlsListener == s.controlsListener
    case VideoAspectRatio => s'.videoAspectRatio == s.videoAspectRatio
    case Error => s'.error == s.error
  }

  /** `s'` is `s.copy(...)` naming at most the fields in `fields`. */
  predicate SameExcept(s: PlayerScreenState, s': PlayerScreenState, fields: set<Field>)
  {
    forall f: Field | f !in fields :: Unchanged(s, s', f)
  }

  /** The video on screen, when there is one, is an entry of the playlist. */
  predicate CurrentInPlaylist(s: PlayerScreenState)
  {
    s.currentVideo.Some? ==> s.currentVideo.value in s.playlist
  }

  /** The defaults: idle, at position 0, speed 1, nothing loaded, no-op controls, a 16:9 frame, no error. */
  lemma DefaultState()
    ensures var s := PlayerScreenState();
      && !s.isPlaying && !s.isBuffering
      && s.currentPosition == 0 && s.bufferedPosition == 0
      && s.currentVideo == None && s.playlist == [] && s.error == None
      && s.currentSpeed == 1 && s.controlsListener == NoOpListener
      && s.videoAspectRatio == 16.0 / 9.0
      && CurrentInPlaylist(s)
  {
  }
}
