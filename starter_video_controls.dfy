/**
 * VideoMate's `ControlsListener` as the starter project has it: the same
 * gestures and commands as the final project's listener, without the speed
 * toggle and without a preference store.
 */
module StarterVideoMateControls {
  import opened Media
  import opened MediaPlayer
  import opened PlayerCommands

  datatype ControlsListener =
    | /** `object : ControlsListener {}`: every method keeps its no-op default. */
      NoOpListener
    | PlayerControlsListener(player: Player)
  {
    /** What a gesture may change: nothing for the no-op listener. */
    ghost function Footprint(): set<object>
    {
      if NoOpListener? then {} else {player}
    }

    method OnPlayPause()
      modifies Footprint()
      ensures PlayerControlsListener? ==> Issued(player, PlayPauseCommands(old(player.record)))
    {
      if PlayerControlsListener? {
        PlayPause(player);
      }
    }

    method OnSkipPrevious()
      modifies Footprint()
      ensures PlayerControlsListener? ==>
        Issued(player, SkipCommands(old(player.record.playbackState), SeekToPreviousMediaItem))
    {
      if PlayerControlsListener? {
        PlayerCommands.Skip(player, SeekToPreviousMediaItem);
      }
    }

    method OnSkipNext()
      modifies Footprint()
      ensures PlayerControlsListener? ==>
        Issued(player, SkipCommands(old(player.record.playbackState), SeekToNextMediaItem))
    {
      if PlayerControlsListener? {
        PlayerCommands.Skip(player, SeekToNextMediaItem);
      }
    }

    method OnSeek(seconds: real)
      modifies Footprint()
      ensures PlayerControlsListener? ==> Issued(player, SeekCommands(old(player.record), seconds))
    {
      if PlayerControlsListener? {
        SeekToSeconds(player, seconds);
      }
    }

    method OnForward()
      modifies Footprint()
      ensures PlayerControlsListener? ==> Issued(player, [SeekForward])
    {
      if PlayerControlsListener? {
        Nudge(player, SeekForward);
      }
    }

    method OnRewind()
      modifies Footprint()
      ensures PlayerControlsListener? ==> Issued(player, [SeekBack])
    {
      if PlayerControlsListener? {
        Nudge(player, SeekBack);
      }
    }

    method OnVideoClick(video: Video)
      modifies Footprint()
      ensures PlayerControlsListener? ==> Issued(player, VideoClickCommands(old(player.record), video.id))
    {
      if PlayerControlsListener? {
        VideoClick(player, video.id);
      }
    }
  }
}
