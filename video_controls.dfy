/**
 * VideoMate's `ControlsListener` (final project): the UI's gestures on the
 * player screen. The interface's own default methods do nothing; a
 * `PlayerControlsListener` turns each gesture into player commands and, for
 * the speed toggle, also writes the saved speed.
 */
module VideoMateControls {
  import opened Wrappers
  import opened Media
  import opened MediaPlayer
  import opened PlayerCommands

  datatype ControlsListener =
    | /** `object : ControlsListener {}`: every method keeps its no-op default. */
      NoOpListener
    | PlayerControlsListener(player: Player, playbackPreferences: PlaybackPreferences)
  {
    /** What a gesture may change: nothing for the no-op listener. */
    ghost function Footprint(): set<object>
    {
      if NoOpListener? then {} else {player, playbackPreferences}
    }

    /** What every gesture but the speed toggle may change: the player alone. */
    ghost function PlayerFootprint(): set<object>
    {
      if NoOpListener? then {} else {player}
    }

    method OnPlayPause()
      modifies PlayerFootprint()
      ensures PlayerControlsListener? ==> Issued(player, PlayPauseCommands(old(player.record)))
    {
      if PlayerControlsListener? {
        PlayPause(player);
      }
    }

    method OnSkipPrevious()
      modifies PlayerFootprint()
      ensures PlayerControlsListener? ==>
        Issued(player, SkipCommands(old(player.record.playbackState), SeekToPreviousMediaItem))
    {
      if PlayerControlsListener? {
        PlayerCommands.Skip(player, SeekToPreviousMediaItem);
      }
    }

    method OnSkipNext()
      modifies PlayerFootprint()
      ensures PlayerControlsListener? ==>
        Issued(player, SkipCommands(old(player.record.playbackState), SeekToNextMediaItem))
    {
      if PlayerControlsListener? {
        PlayerCommands.Skip(player, SeekToNextMediaItem);
      }
    }

    method OnSeek(seconds: real)
      modifies PlayerFootprint()
      ensures PlayerControlsListener? ==> Issued(player, SeekCommands(old(player.record), seconds))
    {
      if PlayerControlsListener? {
        SeekToSeconds(player, seconds);
      }
    }

    method OnForward()
      modifies PlayerFootprint()
      ensures PlayerControlsListener? ==> Issued(player, [SeekForward])
    {
      if PlayerControlsListener? {
        Nudge(player, SeekForward);
      }
    }

    method OnRewind()
      modifies PlayerFootprint()
      ensures PlayerControlsListener? ==> Issued(player, [SeekBack])
    {
      if PlayerControlsListener? {
        Nudge(player, SeekBack);
      }
    }

    method OnVideoClick(video: Video)
      modifies PlayerFootprint()
      ensures PlayerControlsListener? ==> Issued(player, VideoClickCommands(old(player.record), video.id))
    {
      if PlayerControlsListener? {
        VideoClick(player, video.id);
      }
    }

    method OnSpeedChange()
      modifies Footprint()
      ensures PlayerControlsListener? ==> Issued(player, SpeedChangeCommands(old(player.record)))
      ensures PlayerControlsListener? ==> player.record.speed == SpeedToggle(old(player.record.speed))
      ensures PlayerControlsListener? ==> playbackPreferences.playbackSpeed == Some(player.record.speed)
    {
      if PlayerControlsListener? {
        SpeedChange(player, playbackPreferences);
      }
    }
  }
}
