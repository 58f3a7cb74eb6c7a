/**
 * MusicMate's `PlayerScreenState` with repeat and shuffle (the background
 * playback chapter's version, which the final project's view model fills):
 * the snapshot, its defaults, and the names of its fields.
 */
module MusicMateState {
  import opened Wrappers
  import opened Media
  import opened MusicMateControls

  datatype PlayerScreenState = PlayerScreenState(
    isPlaying: bool := false,
    isBuffering: bool := false,
    currentPosition: int := 0,
    bufferedPosition: int := 0,
    playlist: seq<Song> := [],
    currentSong: Option<Song> := None,
    repeatMode: int := 0,
    shuffleModeEnabled: bool := false,
    /** The seven control lambdas, `onPlayPause` to `onRepeat`. */
    controls: MusicControls := NoOpControls,
    error: Option<PlaybackError> := None)

  /** The snapshot's fields, by name. */
  datatype Field =
    | IsPlaying | IsBuffering | CurrentPosition | BufferedPosition | Playlist
    | CurrentSong | RepeatMode | ShuffleModeEnabled | Controls | Error

  predicate Unchanged(s: PlayerScreenState, s': PlayerScreenState, f: Field)
  {
    match f
    case IsPlaying => s'.isPlaying == s.isPlaying
    case IsBuffering => s'.isBuffering == s.isBuffering
    case CurrentPosition => s'.currentPosition == s.currentPosition
    case BufferedPosition => s'.bufferedPosition == s.bufferedPosition
    case Playlist => s'.playlist == s.playlist
    case CurrentSong => s'.currentSong == s.currentSong
    case RepeatMode => s'.repeatMode == s.repeatMode
    case ShuffleModeEnabled => s'.shuffleModeEnabled == s.shuffleModeEnabled
    case Controls => s'.controls == s.controls
    case Error => s'.error == s.error
  }

  /** `s'` is `s.copy(...)` naming at most the fields in `fields`. */
  predicate SameExcept(s: PlayerScreenState, s': PlayerScreenState, fields: set<Field>)
  {
    forall f: Field | f !in fields :: Unchanged(s, s', f)
  }

  /** The song on screen, when there is one, is an entry of the playlist. */
  predicate CurrentInPlaylist(s: PlayerScreenState)
  {
    s.currentSong.Some? ==> s.currentSong.value in s.playlist
  }

  /** The defaults: idle, at position 0, nothing loaded, repeat off, no shuffle, no-op callbacks, no error. */
  lemma DefaultState()
    ensures var s := PlayerScreenState();
      && !s.isPlaying && !s.isBuffering
      && s.currentPosition == 0 && s.bufferedPosition == 0
      && s.playlist == [] && s.currentSong == None
      && s.repeatMode == 0 && !s.shuffleModeEnabled
      && s.controls == NoOpControls && s.error == None
      && CurrentInPlaylist(s)
  {
  }
}
