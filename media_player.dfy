/**
 * The Media3 player as the apps see it. The player itself is external: the
 * model keeps a value record of what the apps read from it and a log of the
 * commands they issue, in order. A command changes the record where the
 * player masks its effect before returning: `play()` and `pause()` set
 * whether it plays when ready and whether it is playing, a setter sets its
 * value, a seek moves the position or the current item, `prepare` takes an
 * idle player out of STATE_IDLE. What the player reports later (playing,
 * buffering, errors, the new item's duration) comes back through the
 * listener callbacks.
 */
module MediaPlayer {
  import opened Wrappers
  import opened KotlinInt
  import opened Media

  /** `C.TIME_UNSET`: the duration reported while it is not known. */
  const TIME_UNSET: int := LONG_MIN + 1

  /** `Player.REPEAT_MODE_OFF`, `_ONE`, `_ALL`. */
  const REPEAT_MODE_OFF: int := 0
  const REPEAT_MODE_ONE: int := 1
  const REPEAT_MODE_ALL: int := 2

  /** `Player.STATE_IDLE`, `_BUFFERING`, `_READY`, `_ENDED`. */
  datatype PlaybackState = Idle | Buffering | Ready | Ended

  /** `Player.DISCONTINUITY_REASON_*`. */
  datatype DiscontinuityReason = AutoTransition | Seek | SeekAdjustment | Skip | Remove | Internal | SilenceSkip

  /** The player calls the apps make. */
  datatype Command =
    | Prepare
    | Play
    | Pause
    | SeekToPreviousMediaItem
    | SeekToNextMediaItem
    | SeekTo(positionMs: int)
    | SeekToItem(index: int, positionMs: int)
    | SeekForward
    | SeekBack
    | SetPlaybackSpeed(speed: real)
    | SetShuffleModeEnabled(enabled: bool)
    | SetRepeatMode(mode: int)
    | SetMediaItems(items: seq<MediaItem>)
    | AddListener

  /** What the apps read from the player. */
  datatype PlayerRecord = PlayerRecord(
    isPlaying: bool,
    playWhenReady: bool,
    playbackState: PlaybackState,
    mediaIds: seq<string>,
    currentIndex: int,
    duration: int,
    speed: real,
    shuffleModeEnabled: bool,
    repeatMode: int,
    currentPosition: int,
    bufferedPosition: int,
    seekForwardIncrement: int,
    seekBackIncrement: int)

  /** `player.currentMediaItem?.mediaId` */
  function CurrentMediaId(r: PlayerRecord): (id: Option<string>)
    ensures id.Some? <==> 0 <= r.currentIndex < |r.mediaIds|
    ensures id.Some? ==> id.value == r.mediaIds[r.currentIndex]
  {
    if 0 <= r.currentIndex < |r.mediaIds| then Some(r.mediaIds[r.currentIndex]) else None
  }

  /** The media ids of a playlist, in order. */
  function MediaIds(items: seq<MediaItem>): (ids: seq<string>)
    ensures |ids| == |items|
    ensures forall i | 0 <= i < |items| :: ids[i] == items[i].mediaId
  {
    seq(|items|, i requires 0 <= i < |items| => items[i].mediaId)
  }

  /**
   * `prepare()`: an idle player leaves STATE_IDLE at once, buffering its
   * items, or ended when it has none; a player that is not idle is left as
   * it is.
   */
  function Prepared(r: PlayerRecord): (r': PlayerRecord)
    ensures r'.playbackState != Idle
    ensures r.playbackState != Idle ==> r' == r
    ensures r' == r.(playbackState := r'.playbackState)
    ensures r.playbackState == Idle ==> (r'.playbackState == Ended <==> |r.mediaIds| == 0)
    ensures r.playbackState == Idle && |r.mediaIds| > 0 ==> r'.playbackState == Buffering
  {
    if r.playbackState != Idle then r
    else if |r.mediaIds| == 0 then r.(playbackState := Ended)
    else r.(playbackState := Buffering)
  }

  /**
   * The position `seekForward()` / `seekBack()` move to: the current
   * position moved by the offset, no later than a known duration and no
   * earlier than 0.
   */
  function SeekOffset(r: PlayerRecord, offsetMs: int): (p: int)
    ensures p >= 0
    ensures r.duration != TIME_UNSET && r.duration >= 0 ==> p <= r.duration
    ensures 0 <= r.currentPosition + offsetMs && (r.duration == TIME_UNSET || r.currentPosition + offsetMs <= r.duration) ==>
      p == r.currentPosition + offsetMs
    ensures r.duration != TIME_UNSET && r.duration >= 0 && r.currentPosition + offsetMs > r.duration ==> p == r.duration
    ensures r.currentPosition + offsetMs < 0 ==> p == 0
  {
    var target := r.currentPosition + offsetMs;
    var capped := if r.duration != TIME_UNSET && target > r.duration then r.duration else target;
    if capped < 0 then 0 else capped
  }

  /**
   * `getNextMediaItemIndex()` in playlist order (`None` for
   * `C.INDEX_UNSET`): the following item, wrapping round to the first only
   * under REPEAT_MODE_ALL; REPEAT_MODE_ONE navigates as OFF.
   */
  function NextIndex(r: PlayerRecord): Option<int>
  {
    var n := |r.mediaIds|;
    if !(0 <= r.currentIndex < n) then None
    else if r.currentIndex + 1 < n then Some(r.currentIndex + 1)
    else if r.repeatMode == REPEAT_MODE_ALL then Some(0)
    else None
  }

  /**
   * `getPreviousMediaItemIndex()` in playlist order: the item before,
   * wrapping round to the last only under REPEAT_MODE_ALL.
   */
  function PreviousIndex(r: PlayerRecord): Option<int>
  {
    var n := |r.mediaIds|;
    if !(0 <= r.currentIndex < n) then None
    else if r.currentIndex > 0 then Some(r.currentIndex - 1)
    else if r.repeatMode == REPEAT_MODE_ALL then Some(n - 1)
    else None
  }

  /**
   * Skipping stays inside the playlist: forward to the following item and
   * back to the one before, wrapping round at either end only under
   * REPEAT_MODE_ALL, and nowhere from an empty playlist.
   */
  lemma NavigationIndices(r: PlayerRecord)
    ensures NextIndex(r).Some? ==> 0 <= NextIndex(r).value < |r.mediaIds|
    ensures PreviousIndex(r).Some? ==> 0 <= PreviousIndex(r).value < |r.mediaIds|
    ensures 0 <= r.currentIndex < |r.mediaIds| - 1 ==> NextIndex(r) == Some(r.currentIndex + 1)
    ensures 0 < r.currentIndex < |r.mediaIds| ==> PreviousIndex(r) == Some(r.currentIndex - 1)
    ensures |r.mediaIds| > 0 && r.currentIndex == |r.mediaIds| - 1 ==>
      (NextIndex(r).Some? <==> r.repeatMode == REPEAT_MODE_ALL) && (NextIndex(r).Some? ==> NextIndex(r).value == 0)
    ensures |r.mediaIds| > 0 && r.currentIndex == 0 ==>
      (PreviousIndex(r).Some? <==> r.repeatMode == REPEAT_MODE_ALL) && (PreviousIndex(r).Some? ==> PreviousIndex(r).value == |r.mediaIds| - 1)
    ensures |r.mediaIds| == 0 ==> NextIndex(r) == None && PreviousIndex(r) == None
  {
  }

  /** `seekToNextMediaItem()` / `seekToPreviousMediaItem()`: the default position (0) of the target item, if there is one. */
  function SkipTo(r: PlayerRecord, target: Option<int>): PlayerRecord
  {
    match target
    case None => r
    case Some(i) => r.(currentIndex := i, currentPosition := 0)
  }

  /**
   * The part of a command's effect the player masks before returning.
   * `play()` makes the player play when ready, so it is playing at once if
   * it is READY; `pause()` stops it.
   */
  function Effect(r: PlayerRecord, c: Command): (r': PlayerRecord)
    ensures r'.duration == r.duration && r'.bufferedPosition == r.bufferedPosition
    ensures c != Prepare ==> r'.playbackState == r.playbackState
    ensures c == Play ==> r'.playWhenReady && (r'.isPlaying <==> r.playbackState == Ready)
    ensures c == Pause ==> !r'.playWhenReady && !r'.isPlaying
    ensures c != Play && c != Pause ==> r'.isPlaying == r.isPlaying && r'.playWhenReady == r.playWhenReady
  {
    match c
    case Prepare => Prepared(r)
    case Play => r.(playWhenReady := true, isPlaying := r.playbackState == Ready)
    case Pause => r.(playWhenReady := false, isPlaying := false)
    case SeekTo(ms) => r.(currentPosition := ms)
    case SeekToItem(i, ms) => r.(currentIndex := i, currentPosition := ms)
    case SeekForward => r.(currentPosition := SeekOffset(r, r.seekForwardIncrement))
    case SeekBack => r.(currentPosition := SeekOffset(r, -r.seekBackIncrement))
    case SeekToNextMediaItem => if r.shuffleModeEnabled then r else SkipTo(r, NextIndex(r))
    case SeekToPreviousMediaItem => if r.shuffleModeEnabled then r else SkipTo(r, PreviousIndex(r))
    case SetPlaybackSpeed(v) => r.(speed := v)
    case SetShuffleModeEnabled(b) => r.(shuffleModeEnabled := b)
    case SetRepeatMode(m) => r.(repeatMode := m)
    case SetMediaItems(items) =>
      r.(mediaIds := MediaIds(items), currentIndex := 0, currentPosition := 0)
    case _ => r
  }

  /** The record after a sequence of commands, applied in order. */
  function Replay(r: PlayerRecord, cs: seq<Command>): (r': PlayerRecord)
    ensures r'.duration == r.duration && r'.bufferedPosition == r.bufferedPosition
    ensures Prepare !in cs ==> r'.playbackState == r.playbackState
    ensures Play !in cs && Pause !in cs ==> r'.isPlaying == r.isPlaying && r'.playWhenReady == r.playWhenReady
  {
    if cs == [] then r
    else
      assert cs == cs[..|cs| - 1] + [cs[|cs| - 1]];
      Effect(Replay(r, cs[..|cs| - 1]), cs[|cs| - 1])
  }

  class Player {
    var record: PlayerRecord
    /** Every command issued to this player, oldest first. */
    var log: seq<Command>

    constructor (initial: PlayerRecord)
      ensures record == initial && log == []
    {
      record := initial;
      log := [];
    }

    method Issue(c: Command)
      modifies this
      ensures log == old(log) + [c]
      ensures record == Effect(old(record), c)
    {
      log := log + [c];
      record := Effect(record, c);
    }
  }

  /** The `SharedPreferences` store, reduced to its one key: the saved playback speed. */
  class PlaybackPreferences {
    var playbackSpeed: Option<real>

    constructor (saved: Option<real>)
      ensures playbackSpeed == saved
    {
      playbackSpeed := saved;
    }

    /** `getFloat(PLAYBACK_SPEED_PREFERENCE, default)` */
    method GetSpeed(default: real) returns (speed: real)
      ensures playbackSpeed.Some? ==> speed == playbackSpeed.value
      ensures playbackSpeed.None? ==> speed == default
    {
      speed := playbackSpeed.GetOr(default);
    }

    /** `edit { putFloat(PLAYBACK_SPEED_PREFERENCE, speed) }` */
    method PutSpeed(speed: real)
      modifies this
      ensures playbackSpeed == Some(speed)
    {
      playbackSpeed := Some(speed);
    }
  }
}
