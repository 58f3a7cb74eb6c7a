/**
 * VideoMate's `PlayerScreenViewModel` (the second video-player chapter's
 * solution). Its callbacks are pure reducers on the snapshot, including
 * the playback-speed callback and a position discontinuity that counts only
 * for seeks; the view model overwrites its snapshot through
 * `updatePlayerScreenState` and sets the player up once the controller is
 * available, restoring the saved speed.
 */
module VideoMateViewModel {
  import opened Wrappers
  import opened KotlinInt
  import opened Media
  import opened MediaPlayer
  import opened PlayerCommands
  import opened VideoCatalogue
  import opened VideoMateControls
  import opened VideoMateState

  /** The `Player.Listener` callbacks the view model overrides, with the values they carry. */
  datatype PlayerEvent =
    | MediaItemTransition(mediaId: Option<string>)
    | PlaybackParametersChanged(speed: real)
    | IsPlayingChanged(playing: bool)
    | IsLoadingChanged(loading: bool)
    | PlaybackStateChanged(state: PlaybackState)
    | PlayerError(playerError: PlaybackError)
    | PositionDiscontinuity(newPositionMs: int, reason: DiscontinuityReason)

  /** The fields each callback's `copy(...)` names; a discontinuity other than a seek names none. */
  function Touches(e: PlayerEvent): set<Field>
  {
    match e
    case MediaItemTransition(_) => {CurrentVideo}
    case PlaybackParametersChanged(_) => {CurrentSpeed}
    case IsPlayingChanged(_) => {IsPlaying}
    case IsLoadingChanged(_) => {IsBuffering}
    case PlaybackStateChanged(_) => {IsBuffering, Error}
    case PlayerError(_) => {Error}
    case PositionDiscontinuity(_, reason) => if reason == Seek then {CurrentPosition} else {}
  }

  /** One listener callback, as the snapshot update it makes. */
  function OnPlayerEvent(videoList: seq<Video>, s: PlayerScreenState, e: PlayerEvent): (s': PlayerScreenState)
    ensures SameExcept(s, s', Touches(e))
    ensures e.MediaItemTransition? ==> s'.currentVideo == FindById(videoList, VideoId, e.mediaId)
    ensures e.PlaybackParametersChanged? ==> s'.currentSpeed == FloatToInt(e.speed)
    ensures e.IsPlayingChanged? ==> s'.isPlaying == e.playing
    ensures e.IsLoadingChanged? ==> s'.isBuffering == e.loading
    ensures e.PlaybackStateChanged? ==> s'.isBuffering == (e.state == Buffering)
    ensures e.PlaybackStateChanged? ==> (s'.error == None <==> e.state != Idle || s.error == None)
    ensures e.PlaybackStateChanged? && e.state == Idle ==> s'.error == s.error
    ensures e.PlayerError? ==> s'.error == Some(e.playerError)
    ensures e.PositionDiscontinuity? && e.reason == Seek ==> s'.currentPosition == e.newPositionMs
    ensures e.PositionDiscontinuity? && e.reason != Seek ==> s' == s
  {
    match e
    case MediaItemTransition(mediaId) => s.(currentVideo := FindById(videoList, VideoId, mediaId))
    case PlaybackParametersChanged(speed) => s.(currentSpeed := FloatToInt(speed))
    case IsPlayingChanged(playing) => s.(isPlaying := playing)
    case IsLoadingChanged(loading) => s.(isBuffering := loading)
    case PlaybackStateChanged(state) =>
      var error := if state != Idle && s.error != None then None else s.error;
      s.(isBuffering := state == Buffering, error := error)
    case PlayerError(playerError) => s.(error := Some(playerError))
    case PositionDiscontinuity(newPositionMs, reason) =>
      if reason == Seek then s.(currentPosition := newPositionMs) else s
  }

  /** No callback changes the playlist, and none moves the video on screen out of the catalogue. */
  lemma OnPlayerEventKeepsCurrentInPlaylist(videoList: seq<Video>, s: PlayerScreenState, e: PlayerEvent)
    requires s.playlist == videoList && CurrentInPlaylist(s)
    ensures var s' := OnPlayerEvent(videoList, s, e);
      s'.playlist == videoList && CurrentInPlaylist(s')
  {
    var s' := OnPlayerEvent(videoList, s, e);
    assert Unchanged(s, s', Playlist);
    assert Unchanged(s, s', CurrentVideo) || e.MediaItemTransition?;
  }

  /**
   * The speed shown after the player reports the speed `onSpeedChange`
   * set: from 1 it shows 2, from 2 it shows 1.
   */
  lemma SpeedChangeShown(videoList: seq<Video>, s: PlayerScreenState, r: PlayerRecord)
    requires r.speed == 1.0 || r.speed == 2.0
    ensures FloatToInt(r.speed) == 1 || FloatToInt(r.speed) == 2
    ensures OnPlayerEvent(videoList, s, PlaybackParametersChanged(Replay(r, SpeedChangeCommands(r)).speed)).currentSpeed
      == 3 - FloatToInt(r.speed)
  {
    assert Truncate(1.0) == 1 && Truncate(2.0) == 2;
  }

  /** `setInitialPlayerScreenState(player)`, reading `r` from the player the listener is bound to. */
  function SetInitialPlayerScreenState(
    videoList: seq<Video>, s: PlayerScreenState, r: PlayerRecord, player: Player, playbackPreferences: PlaybackPreferences): (s': PlayerScreenState)
    ensures SameExcept(s, s', {IsPlaying, Playlist, CurrentSpeed, CurrentVideo, BufferedPosition, Listener})
    ensures s'.isPlaying == r.isPlaying && s'.playlist == videoList
    ensures s'.currentSpeed == FloatToInt(r.speed)
    ensures s'.currentVideo == FindById(videoList, VideoId, CurrentMediaId(r))
    ensures s'.bufferedPosition == r.bufferedPosition
    ensures s'.controlsListener == PlayerControlsListener(player, playbackPreferences)
    ensures CurrentInPlaylist(s')
  {
    s.(isPlaying := r.isPlaying,
       playlist := videoList,
       currentSpeed := FloatToInt(r.speed),
       currentVideo := FindById(videoList, VideoId, CurrentMediaId(r)),
       bufferedPosition := r.bufferedPosition,
       controlsListener := PlayerControlsListener(player, playbackPreferences))
  }

  /** One step of the progress job: copy the player's position and buffered position. */
  function PollStep(s: PlayerScreenState, r: PlayerRecord): (s': PlayerScreenState)
    ensures SameExcept(s, s', {CurrentPosition, BufferedPosition})
    ensures s'.currentPosition == r.currentPosition && s'.bufferedPosition == r.bufferedPosition
  {
    s.(currentPosition := r.currentPosition, bufferedPosition := r.bufferedPosition)
  }

  /** The screen never shows the playback state it was set up from: preparing the player changes nothing on it. */
  lemma InitialStateIgnoresPlaybackState(
    videoList: seq<Video>, s: PlayerScreenState, r: PlayerRecord, player: Player, playbackPreferences: PlaybackPreferences)
    ensures var r' := Prepared(r);
      PollStep(SetInitialPlayerScreenState(videoList, s, r', player, playbackPreferences), r') ==
      PollStep(SetInitialPlayerScreenState(videoList, s, r, player, playbackPreferences), r)
  {
    assert CurrentMediaId(Prepared(r)) == CurrentMediaId(r);
  }

  /** `loadVideos()`: one media item per catalogue entry, in order. */
  function LoadVideos(videoList: seq<Video>): (items: seq<MediaItem>)
    ensures |items| == |videoList|
    ensures forall i | 0 <= i < |items| :: items[i] == ToMediaItem(videoList[i].id, videoList[i].source)
  {
    seq(|videoList|, i requires 0 <= i < |videoList| => ToMediaItem(videoList[i].id, videoList[i].source))
  }

  /**
   * The loaded items carry the ids "1" to "8", no two alike, and exactly
   * the three packaged clips (ids 3, 5 and 6) are played as raw resources.
   */
  lemma LoadedVideos()
    ensures NoDuplicates(MediaIds(LoadVideos(VideoList())))
    ensures forall i | 0 <= i < |LoadVideos(VideoList())| :: LoadVideos(VideoList())[i].mediaId == IntToString(i + 1)
    ensures forall i | 0 <= i < |LoadVideos(VideoList())| :: LoadVideos(VideoList())[i].uri.RawResource? <==> i + 1 in {3, 5, 6}
  {
    VideoListShape();
    LocalVideos();
    var ids := MediaIds(LoadVideos(VideoList()));
    forall i, j | 0 <= i < j < |ids|
      ensures ids[i] != ids[j]
    {
      IntToStringInjective(VideoList()[i].id, VideoList()[j].id);
    }
    forall i | 0 <= i < |LoadVideos(VideoList())|
      ensures LoadVideos(VideoList())[i].uri.RawResource? <==> i + 1 in {3, 5, 6}
    {
      assert VideoList()[i] in VideoList();
    }
  }

  /** On a player holding the catalogue, a video click issues what a song click would: at most one seek. */
  lemma CatalogueClick(r: PlayerRecord, videoId: int)
    requires r.mediaIds == MediaIds(LoadVideos(VideoList()))
    ensures VideoClickCommands(r, videoId) == SongClickCommands(r, videoId)
  {
    LoadedVideos();
    ClicksAgreeOnDistinctIds(r, videoId);
  }

  /**
   * The player calls of `setupPlayer`: load the catalogue into an empty
   * player, restore the saved speed (1 when none is saved), prepare an
   * idle player, listen.
   */
  function SetupCommands(videoList: seq<Video>, r: PlayerRecord, savedSpeed: Option<real>): (cs: seq<Command>)
    ensures |cs| >= 2 && cs[|cs| - 1] == AddListener
    ensures |r.mediaIds| == 0 ==> cs[0] == SetMediaItems(LoadVideos(videoList))
    ensures forall c | c in cs && c.SetMediaItems? :: |r.mediaIds| == 0
    ensures forall c | c in cs && c.SetPlaybackSpeed? :: c.speed == savedSpeed.GetOr(1.0)
    ensures Prepare in cs <==> r.playbackState == Idle
  {
    LoadAndSpeed(videoList, r, savedSpeed) + (PrepareIfIdle(r.playbackState) + [AddListener])
  }

  /** The calls `setupPlayer` makes before it reads the player for the initial state. */
  function LoadAndSpeed(videoList: seq<Video>, r: PlayerRecord, savedSpeed: Option<real>): (cs: seq<Command>)
    ensures |cs| >= 1 && cs[|cs| - 1] == SetPlaybackSpeed(savedSpeed.GetOr(1.0))
    ensures |r.mediaIds| == 0 ==> |cs| == 2 && cs[0] == SetMediaItems(LoadVideos(videoList))
    ensures |r.mediaIds| != 0 ==> |cs| == 1
  {
    (if |r.mediaIds| == 0 then [SetMediaItems(LoadVideos(videoList))] else []) + [SetPlaybackSpeed(savedSpeed.GetOr(1.0))]
  }

  /**
   * The load and the speed restore leave the player at the saved speed (1
   * when none is saved), holding the catalogue from its first video if it
   * was empty, and with its items untouched otherwise.
   */
  lemma LoadAndSpeedRecord(videoList: seq<Video>, r: PlayerRecord, savedSpeed: Option<real>)
    ensures var r' := Replay(r, LoadAndSpeed(videoList, r, savedSpeed));
      && r'.speed == savedSpeed.GetOr(1.0)
      && r'.playbackState == r.playbackState
      && (|r.mediaIds| == 0 ==> r'.mediaIds == MediaIds(LoadVideos(videoList)) && r'.currentIndex == 0)
      && (|r.mediaIds| != 0 ==> r'.mediaIds == r.mediaIds && r'.currentIndex == r.currentIndex)
  {
    var speed := SetPlaybackSpeed(savedSpeed.GetOr(1.0));
    var cs := LoadAndSpeed(videoList, r, savedSpeed);
    if |r.mediaIds| == 0 {
      var load := SetMediaItems(LoadVideos(videoList));
      assert cs == [load] + [speed];
      ReplayAppend(r, [], load);
      ReplayAppend(r, [load], speed);
      assert Replay(r, [load]) == Effect(r, load);
      assert Replay(r, cs) == Effect(Effect(r, load), speed);
    } else {
      assert cs == [] + [speed];
      ReplayAppend(r, [], speed);
      assert Replay(r, cs) == Effect(r, speed);
    }
  }

  /**
   * The record after the whole setup is the record after the load and the
   * speed restore, prepared: the player is no longer idle.
   */
  lemma SetupPlayerRecord(videoList: seq<Video>, r: PlayerRecord, savedSpeed: Option<real>)
    ensures Replay(r, SetupCommands(videoList, r, savedSpeed)) == Prepared(Replay(r, LoadAndSpeed(videoList, r, savedSpeed)))
    ensures Replay(r, SetupCommands(videoList, r, savedSpeed)).playbackState != Idle
  {
    var first := LoadAndSpeed(videoList, r, savedSpeed);
    var rest := PrepareIfIdle(r.playbackState) + [AddListener];
    assert SetupCommands(videoList, r, savedSpeed) == first + rest;
    ReplayConcat(r, first, rest);
    assert Replay(r, first).playbackState == r.playbackState;
    PrepareAndListenRecord(Replay(r, first));
  }

  /**
   * `setupPlayer` reads the record for the screen state before it prepares
   * the player; preparing changes nothing the screen state shows.
   */
  lemma SetupPlayerFinal(
    videoList: seq<Video>, s: PlayerScreenState, r0: PlayerRecord, savedSpeed: Option<real>,
    record: PlayerRecord, final: PlayerRecord, player: Player, playbackPreferences: PlaybackPreferences)
    requires record == Replay(r0, LoadAndSpeed(videoList, r0, savedSpeed))
    requires final == Replay(record, PrepareIfIdle(record.playbackState) + [AddListener])
    ensures SetupCommands(videoList, r0, savedSpeed) == LoadAndSpeed(videoList, r0, savedSpeed) + (PrepareIfIdle(record.playbackState) + [AddListener])
    ensures final == Replay(r0, SetupCommands(videoList, r0, savedSpeed))
    ensures PollStep(SetInitialPlayerScreenState(videoList, s, final, player, playbackPreferences), final)
         == PollStep(SetInitialPlayerScreenState(videoList, s, record, player, playbackPreferences), record)
  {
    LoadAndSpeedRecord(videoList, r0, savedSpeed);
    SetupPlayerRecord(videoList, r0, savedSpeed);
    PrepareAndListenRecord(record);
    InitialStateIgnoresPlaybackState(videoList, s, record, player, playbackPreferences);
  }

  /** Setting up an empty player with shuffle off, as a new player is, shows the first video of the catalogue at the restored speed. */
  lemma FreshSetupShowsFirstVideo(
    videoList: seq<Video>, s: PlayerScreenState, r: PlayerRecord, savedSpeed: Option<real>, player: Player, playbackPreferences: PlaybackPreferences)
    requires |r.mediaIds| == 0 && |videoList| > 0 && !r.shuffleModeEnabled
    ensures var s' := SetInitialPlayerScreenState(videoList, s, Replay(r, SetupCommands(videoList, r, savedSpeed)), player, playbackPreferences);
      s'.currentVideo == Some(videoList[0]) && s'.currentSpeed == FloatToInt(savedSpeed.GetOr(1.0))
  {
    SetupPlayerRecord(videoList, r, savedSpeed);
    LoadAndSpeedRecord(videoList, r, savedSpeed);
    var r' := Replay(r, SetupCommands(videoList, r, savedSpeed));
    assert CurrentMediaId(r') == Some(IntToString(videoList[0].id));
  }

  /** The first calls of `setupPlayer`: load the catalogue into an empty player, then restore the saved speed. */
  method IssueLoadAndSpeed(player: Player, videoList: seq<Video>, playbackPreferences: PlaybackPreferences)
    modifies player
    ensures Issued(player, LoadAndSpeed(videoList, old(player.record), playbackPreferences.playbackSpeed))
  {
    ghost var r0 := player.record;
    ghost var load: seq<Command> := if |r0.mediaIds| == 0 then [SetMediaItems(LoadVideos(videoList))] else [];
    if |player.record.mediaIds| == 0 {
      var mediaItems := LoadVideos(videoList);
      ReplayAppend(r0, [], SetMediaItems(mediaItems));
      player.Issue(SetMediaItems(mediaItems));
    }
    assert player.log == old(player.log) + load && player.record == Replay(r0, load);
    var speed := playbackPreferences.GetSpeed(1.0);
    ReplayAppend(r0, load, SetPlaybackSpeed(speed));
    player.Issue(SetPlaybackSpeed(speed));
  }

  class PlayerScreenViewModel {
    /** The catalogue, `VideoList`. */
    const videoList: seq<Video>
    /** The `SharedPreferences` holding the saved playback speed. */
    const playbackPreferences: PlaybackPreferences
    /** `_playerScreenState.value` */
    var playerScreenState: PlayerScreenState
    /** Whether `setupPlayer` has put the initial state on screen and registered the listener. */
    ghost var isSetUp: bool

    /** After setup the catalogue is on screen, and so is the current video when there is one. */
    ghost predicate Valid()
      reads this
    {
      isSetUp ==> playerScreenState.playlist == videoList && CurrentInPlaylist(playerScreenState)
    }

    constructor (playbackPreferences: PlaybackPreferences)
      ensures videoList == VideoList() && this.playbackPreferences == playbackPreferences
      ensures playerScreenState == PlayerScreenState() && !isSetUp
      ensures Valid()
    {
      videoList := VideoList();
      this.playbackPreferences := playbackPreferences;
      playerScreenState := PlayerScreenState();
      isSetUp := false;
    }

    /** `updatePlayerScreenState(block)` */
    method UpdatePlayerScreenState(block: PlayerScreenState -> PlayerScreenState)
      modifies this`playerScreenState
      ensures playerScreenState == block(old(playerScreenState))
    {
      playerScreenState := block(playerScreenState);
    }

    /**
     * `setupPlayer()`, given the controller (null while it is not
     * available, which makes the call a no-op). The progress job's first
     * step runs at once, before its first delay.
     */
    method SetupPlayer(controller: Player?)
      requires Valid()
      modifies this, controller
      ensures controller == null ==> unchanged(this)
      ensures controller != null ==>
        Issued(controller, SetupCommands(videoList, old(controller.record), playbackPreferences.playbackSpeed))
      ensures controller != null ==> isSetUp
      ensures controller != null ==>
        playerScreenState == PollStep(SetInitialPlayerScreenState(
          videoList, old(playerScreenState), controller.record, controller, playbackPreferences), controller.record)
      ensures Valid()
    {
      if controller == null {
        return;
      }
      var player := controller;
      ghost var r0, log0, s0 := player.record, player.log, playerScreenState;
      ghost var saved := playbackPreferences.playbackSpeed;
      ghost var first := LoadAndSpeed(videoList, r0, saved);
      IssueLoadAndSpeed(player, videoList, playbackPreferences);
      var record := player.record;
      SetInitialPlayerScreenStateAndPoll(player, record);
      ghost var shown := playerScreenState;
      isSetUp := true;
      PrepareIfIdleThen(player, AddListener);
      assert playerScreenState == shown;
      ghost var rest := PrepareIfIdle(record.playbackState) + [AddListener];
      IssuedInTwoRuns(record, log0, first, rest);
      ghost var final := player.record;
      SetupPlayerFinal(videoList, s0, r0, saved, record, final, player, playbackPreferences);
      assert player.log == log0 + SetupCommands(videoList, r0, saved);
      assert final == Replay(r0, SetupCommands(videoList, r0, saved));
      assert playerScreenState == PollStep(SetInitialPlayerScreenState(videoList, s0, final, player, playbackPreferences), final);
    }

    /**
     * `setInitialPlayerScreenState(player)` followed by the progress job's
     * first step, both reading `record` from `player`.
     */
    method SetInitialPlayerScreenStateAndPoll(player: Player, record: PlayerRecord)
      modifies this`playerScreenState
      ensures playerScreenState ==
        PollStep(SetInitialPlayerScreenState(videoList, old(playerScreenState), record, player, playbackPreferences), record)
    {
      var videos, preferences := videoList, playbackPreferences;
      UpdatePlayerScreenState(s => SetInitialPlayerScreenState(videos, s, record, player, preferences));
      UpdatePlayerScreenState(s => PollStep(s, record));
    }

    /** A listener callback, delivered to the view model. */
    method HandleEvent(e: PlayerEvent)
      requires Valid()
      modifies this`playerScreenState
      ensures playerScreenState == OnPlayerEvent(videoList, old(playerScreenState), e)
      ensures Valid()
    {
      var videos := videoList;
      UpdatePlayerScreenState(s => OnPlayerEvent(videos, s, e));
      if isSetUp {
        OnPlayerEventKeepsCurrentInPlaylist(videoList, old(playerScreenState), e);
      }
    }

    /** One step of the progress job. */
    method PollProgress(player: Player)
      requires Valid()
      modifies this`playerScreenState
      ensures playerScreenState == PollStep(old(playerScreenState), player.record)
      ensures Valid()
    {
      var record := player.record;
      UpdatePlayerScreenState(s => PollStep(s, record));
    }
  }
}
