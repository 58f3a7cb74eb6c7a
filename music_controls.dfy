/**
 * MusicMate's control callbacks, the `onPlayPause` ... `onRepeat` lambdas
 * of its `PlayerScreenState`. Until the view model binds them to a player
 * they are the defaults `{}`, which do nothing; once bound, each issues its
 * commands to that player.
 */
module MusicMateControls {
  import opened Media
  import opened MediaPlayer
  import opened PlayerCommands

  datatype MusicControls =
    | /** The default lambdas `{}`. */
      NoOpControls
    | /** The lambdas `setInitialPlayerScreenState` builds around `player`. */
      PlayerControls(player: Player)
  {
    /** What a callback may change: nothing for the defaults. */
    ghost function Footprint(): set<object>
    {
      if NoOpControls? then {} else {player}
    }

    method OnPlayPause()
      modifies Footprint()
      ensures PlayerControls? ==> Issued(player, PlayPauseCommands(old(player.record)))
    {
      if PlayerControls? {
        PlayPause(player);
      }
    }

    method OnSkipPrevious()
      modifies Footprint()
      ensures PlayerControls? ==>
        Issued(player, SkipCommands(old(player.record.playbackState), SeekToPreviousMediaItem))
    {
      if PlayerControls? {
        PlayerCommands.Skip(player, SeekToPreviousMediaItem);
      }
    }

    method OnSkipNext()
      modifies Footprint()
      ensures PlayerControls? ==>
        Issued(player, SkipCommands(old(player.record.playbackState), SeekToNextMediaItem))
    {
      if PlayerControls? {
        PlayerCommands.Skip(player, SeekToNextMediaItem);
      }
    }

    method OnSeek(seconds: real)
      modifies Footprint()
      ensures PlayerControls? ==> Issued(player, SeekCommands(old(player.record), seconds))
    {
      if PlayerControls? {
        SeekToSeconds(player, seconds);
      }
    }

    method OnSongClick(song: Song)
      modifies Footprint()
      ensures PlayerControls? ==> Issued(player, SongClickCommands(old(player.record), song.id))
    {
      if PlayerControls? {
        SongClick(player, song.id);
      }
    }

    method OnShuffle()
      modifies Footprint()
      ensures PlayerControls? ==> Issued(player, [SetShuffleModeEnabled(!old(player.record.shuffleModeEnabled))])
      ensures PlayerControls? ==> player.record.shuffleModeEnabled == !old(player.record.shuffleModeEnabled)
    {
      if PlayerControls? {
        ToggleShuffle(player);
      }
    }

    method OnRepeat()
      modifies Footprint()
      ensures PlayerControls? ==> Issued(player, [SetRepeatMode(NextRepeatMode(old(player.record.repeatMode)))])
      ensures PlayerControls? ==> player.record.repeatMode == NextRepeatMode(old(player.record.repeatMode))
    {
      if PlayerControls? {
        CycleRepeatMode(player);
      }
    }
  }
}
