/**
 * MusicMate's `PlayerScreenViewModel` as the starter project has it: no
 * player yet; starting the screen only puts the song catalogue on it, and
 * stopping does nothing.
 */
module StarterMusicMateViewModel {
  import opened Media
  import opened StarterMusicMateState

  /** `onStart`'s update, `copy(playlist = SongList)`. */
  function WithPlaylist(s: PlayerScreenState, songList: seq<Song>): (s': PlayerScreenState)
    ensures s'.playlist == songList
    ensures s'.(playlist := s.playlist) == s
  {
    s.(playlist := songList)
  }

  /** Starting twice shows the same snapshot as starting once. */
  lemma WithPlaylistIdempotent(s: PlayerScreenState, songList: seq<Song>)
    ensures WithPlaylist(WithPlaylist(s, songList), songList) == WithPlaylist(s, songList)
  {
  }

  class PlayerScreenViewModel {
    /** The song catalogue the app plays. */
    const songList: seq<Song>
    /** `_playerScreenState.value` */
    var playerScreenState: PlayerScreenState

    constructor (songList: seq<Song>)
      ensures this.songList == songList && playerScreenState == PlayerScreenState()
    {
      this.songList := songList;
      playerScreenState := PlayerScreenState();
    }

    /** `updatePlayerScreenState(update)` */
    method UpdatePlayerScreenState(update: PlayerScreenState -> PlayerScreenState)
      modifies this`playerScreenState
      ensures playerScreenState == update(old(playerScreenState))
    {
      playerScreenState := update(playerScreenState);
    }

    method OnStart()
      modifies this`playerScreenState
      ensures playerScreenState == WithPlaylist(old(playerScreenState), songList)
    {
      var songs := songList;
      UpdatePlayerScreenState(s => WithPlaylist(s, songs));
    }

    method OnStop()
      ensures playerScreenState == old(playerScreenState)
    {
    }
  }
}
