/**
 * MusicMate's `PlayerScreenViewModel` (final project). The listener
 * callbacks and the initial state are pure reducers on the snapshot; the
 * view model itself holds the current snapshot, overwrites it through
 * `updatePlayerScreenState`, and sets the player up once its controller is
 * available. The song catalogue is fixed when the view model is created.
 */
module MusicMateViewModel {
  import opened Wrappers
  import opened KotlinInt
  import opened Media
  import opened MediaPlayer
  import opened PlayerCommands
  import opened MusicMateControls
  import opened MusicMateState

  /** The `Player.Listener` callbacks the view model overrides, with the values they carry. */
  datatype PlayerEvent =
    | MediaItemTransition(mediaId: Option<string>)
    | IsPlayingChanged(playing: bool)
    | IsLoadingChanged(loading: bool)
    | PlaybackStateChanged(state: PlaybackState)
    | PlayerError(playerError: PlaybackError)
    | RepeatModeChanged(mode: int)
    | ShuffleModeEnabledChanged(enabled: bool)
    | PositionDiscontinuity(newPositionMs: int, reason: DiscontinuityReason)

  /** The fields each callback's `copy(...)` names. */
  function Touches(e: PlayerEvent): set<Field>
  {
    match e
    case MediaItemTransition(_) => {CurrentSong}
    case IsPlayingChanged(_) => {IsPlaying}
    case IsLoadingChanged(_) => {IsBuffering}
    case PlaybackStateChanged(_) => {IsBuffering, Error}
    case PlayerError(_) => {Error}
    case RepeatModeChanged(_) => {RepeatMode}
    case ShuffleModeEnabledChanged(_) => {ShuffleModeEnabled}
    case PositionDiscontinuity(_, _) => {CurrentPosition}
  }

  /** One listener callback, as the snapshot update it makes. */
  function OnPlayerEvent(songList: seq<Song>, s: PlayerScreenState, e: PlayerEvent): (s': PlayerScreenState)
    ensures SameExcept(s, s', Touches(e))
    ensures e.MediaItemTransition? ==> s'.currentSong == FindById(songList, SongId, e.mediaId)
    ensures e.IsPlayingChanged? ==> s'.isPlaying == e.playing
    ensures e.IsLoadingChanged? ==> s'.isBuffering == e.loading
    ensures e.PlaybackStateChanged? ==> s'.isBuffering == (e.state == Buffering)
    ensures e.PlaybackStateChanged? ==> (s'.error == None <==> e.state != Idle || s.error == None)
    ensures e.PlaybackStateChanged? && e.state == Idle ==> s'.error == s.error
    ensures e.PlayerError? ==> s'.error == Some(e.playerError)
    ensures e.RepeatModeChanged? ==> s'.repeatMode == e.mode
    ensures e.ShuffleModeEnabledChanged? ==> s'.shuffleModeEnabled == e.enabled
    ensures e.PositionDiscontinuity? ==> s'.currentPosition == e.newPositionMs
  {
    match e
    case MediaItemTransition(mediaId) => s.(currentSong := FindById(songList, SongId, mediaId))
    case IsPlayingChanged(playing) => s.(isPlaying := playing)
    case IsLoadingChanged(loading) => s.(isBuffering := loading)
    case PlaybackStateChanged(state) =>
      var error := if state != Idle && s.error != None then None else s.error;
      s.(isBuffering := state == Buffering, error := error)
    case PlayerError(playerError) => s.(error := Some(playerError))
    case RepeatModeChanged(mode) => s.(repeatMode := mode)
    case ShuffleModeEnabledChanged(enabled) => s.(shuffleModeEnabled := enabled)
    case PositionDiscontinuity(newPositionMs, _) => s.(currentPosition := newPositionMs)
  }

  /** The snapshot after a run of callbacks, delivered in order. */
  function Deliver(songList: seq<Song>, s: PlayerScreenState, events: seq<PlayerEvent>): (s': PlayerScreenState)
    ensures s'.playlist == s.playlist
    ensures (forall i | 0 <= i < |events| :: !events[i].MediaItemTransition?) ==> s'.currentSong == s.currentSong
    decreases |events|
  {
    if events == [] then s else Deliver(songList, OnPlayerEvent(songList, s, events[0]), events[1..])
  }

  /** No callback changes the playlist, and none moves the song on screen out of it. */
  lemma OnPlayerEventKeepsCurrentInPlaylist(songList: seq<Song>, s: PlayerScreenState, e: PlayerEvent)
    requires s.playlist == songList && CurrentInPlaylist(s)
    ensures var s' := OnPlayerEvent(songList, s, e);
      s'.playlist == songList && CurrentInPlaylist(s')
  {
    var s' := OnPlayerEvent(songList, s, e);
    assert Unchanged(s, s', Playlist);
    assert Unchanged(s, s', CurrentSong) || e.MediaItemTransition?;
  }

  /**
   * Once the initial state has put the catalogue on screen, no run of
   * callbacks changes the playlist, and the song on screen stays one of
   * its entries.
   */
  lemma {:induction false} DeliverKeepsCurrentInPlaylist(songList: seq<Song>, s: PlayerScreenState, events: seq<PlayerEvent>)
    requires s.playlist == songList && CurrentInPlaylist(s)
    ensures var s' := Deliver(songList, s, events);
      s'.playlist == songList && CurrentInPlaylist(s')
    decreases |events|
  {
    if events != [] {
      OnPlayerEventKeepsCurrentInPlaylist(songList, s, events[0]);
      DeliverKeepsCurrentInPlaylist(songList, OnPlayerEvent(songList, s, events[0]), events[1..]);
    }
  }

  /** `setInitialPlayerScreenState(player)`, reading `r` from the player the lambdas are bound to. */
  function SetInitialPlayerScreenState(songList: seq<Song>, s: PlayerScreenState, r: PlayerRecord, player: Player): (s': PlayerScreenState)
    ensures SameExcept(s, s', {IsPlaying, Playlist, CurrentSong, RepeatMode, ShuffleModeEnabled, Controls})
    ensures s'.isPlaying == r.isPlaying && s'.playlist == songList
    ensures s'.currentSong == FindById(songList, SongId, CurrentMediaId(r))
    ensures s'.repeatMode == r.repeatMode && s'.shuffleModeEnabled == r.shuffleModeEnabled
    ensures s'.controls == PlayerControls(player)
    ensures CurrentInPlaylist(s')
  {
    s.(isPlaying := r.isPlaying,
       playlist := songList,
       currentSong := FindById(songList, SongId, CurrentMediaId(r)),
       repeatMode := r.repeatMode,
       shuffleModeEnabled := r.shuffleModeEnabled,
       controls := PlayerControls(player))
  }

  /** One step of the progress job: copy the player's position and buffered position. */
  function PollStep(s: PlayerScreenState, r: PlayerRecord): (s': PlayerScreenState)
    ensures SameExcept(s, s', {CurrentPosition, BufferedPosition})
    ensures s'.currentPosition == r.currentPosition && s'.bufferedPosition == r.bufferedPosition
  {
    s.(currentPosition := r.currentPosition, bufferedPosition := r.bufferedPosition)
  }

  /** The media items `setupPlayer` loads: one per song, in catalogue order. */
  function LoadSongs(songList: seq<Song>): (items: seq<MediaItem>)
    ensures |items| == |songList|
    ensures forall i | 0 <= i < |songList| :: items[i] == ToMediaItem(songList[i].id, songList[i].source)
  {
    seq(|songList|, i requires 0 <= i < |songList| => ToMediaItem(songList[i].id, songList[i].source))
  }

  /** The player calls of `setupPlayer`: load the catalogue into an empty player, prepare an idle one, listen. */
  function SetupCommands(songList: seq<Song>, r: PlayerRecord): (cs: seq<Command>)
    ensures |cs| >= 1 && cs[|cs| - 1] == AddListener
    ensures |r.mediaIds| == 0 ==> cs[0] == SetMediaItems(LoadSongs(songList))
    ensures forall c | c in cs && c.SetMediaItems? :: |r.mediaIds| == 0
    ensures Prepare in cs <==> r.playbackState == Idle
    ensures r.playbackState == Idle ==> |cs| >= 2 && cs[|cs| - 2] == Prepare
    ensures |cs| == (if |r.mediaIds| == 0 then 1 else 0) + (if r.playbackState == Idle then 1 else 0) + 1
  {
    (if |r.mediaIds| == 0 then [SetMediaItems(LoadSongs(songList))] else []) + (PrepareIfIdle(r.playbackState) + [AddListener])
  }

  /** The player calls of `setupPlayer`, issued one at a time. */
  method IssueSetupCommands(player: Player, songList: seq<Song>)
    modifies player
    ensures Issued(player, SetupCommands(songList, old(player.record)))
  {
    ghost var r0 := player.record;
    ghost var load: seq<Command> := if |r0.mediaIds| == 0 then [SetMediaItems(LoadSongs(songList))] else [];
    if |player.record.mediaIds| == 0 {
      var mediaItems := LoadSongs(songList);
      ReplayAppend(r0, [], SetMediaItems(mediaItems));
      player.Issue(SetMediaItems(mediaItems));
    }
    assert player.log == old(player.log) + load && player.record == Replay(r0, load);
    assert player.record.playbackState == r0.playbackState;
    ghost var log1 := player.log;
    PrepareIfIdleThen(player, AddListener);
    ghost var rest := PrepareIfIdle(r0.playbackState) + [AddListener];
    IssuedInTwoRuns(r0, old(player.log), load, rest);
  }

  /** The commands after the load prepare the loaded record. */
  lemma SetupPreparesLoaded(songList: seq<Song>, r: PlayerRecord)
    ensures Replay(r, SetupCommands(songList, r))
         == Prepared(if |r.mediaIds| == 0 then Effect(r, SetMediaItems(LoadSongs(songList))) else r)
  {
    var load := if |r.mediaIds| == 0 then [SetMediaItems(LoadSongs(songList))] else [];
    var rest := PrepareIfIdle(r.playbackState) + [AddListener];
    assert SetupCommands(songList, r) == load + rest;
    ReplayConcat(r, load, rest);
    var loaded := Replay(r, load);
    if |r.mediaIds| == 0 {
      assert load == [] + [SetMediaItems(LoadSongs(songList))];
      ReplayAppend(r, [], SetMediaItems(LoadSongs(songList)));
      assert loaded == Effect(r, SetMediaItems(LoadSongs(songList)));
    } else {
      assert loaded == r;
    }
    assert loaded.playbackState == r.playbackState;
    PrepareAndListenRecord(loaded);
  }

  /**
   * After setup the player is no longer idle. It holds the catalogue if it
   * was empty (starting at its first song), and is otherwise left as it
   * was apart from being prepared.
   */
  lemma SetupPlaylist(songList: seq<Song>, r: PlayerRecord)
    ensures Replay(r, SetupCommands(songList, r)).playbackState != Idle
    ensures |r.mediaIds| == 0 ==>
      Replay(r, SetupCommands(songList, r)).mediaIds == MediaIds(LoadSongs(songList)) &&
      Replay(r, SetupCommands(songList, r)).currentIndex == 0
    ensures |r.mediaIds| != 0 ==> Replay(r, SetupCommands(songList, r)) == Prepared(r)
  {
    SetupPreparesLoaded(songList, r);
    var r' := Replay(r, SetupCommands(songList, r));
    if |r.mediaIds| == 0 {
      var loaded := Effect(r, SetMediaItems(LoadSongs(songList)));
      assert r' == Prepared(loaded);
      assert loaded.mediaIds == MediaIds(LoadSongs(songList)) && loaded.currentIndex == 0;
    } else {
      assert r' == Prepared(r);
    }
  }

  /** Setting up an empty player with shuffle off, as a new player is, shows the catalogue's first song. */
  lemma FreshSetupShowsFirstSong(songList: seq<Song>, s: PlayerScreenState, r: PlayerRecord, player: Player)
    requires |r.mediaIds| == 0 && |songList| > 0 && !r.shuffleModeEnabled
    ensures SetInitialPlayerScreenState(songList, s, Replay(r, SetupCommands(songList, r)), player).currentSong == Some(songList[0])
  {
    SetupPlaylist(songList, r);
    var r' := Replay(r, SetupCommands(songList, r));
    assert CurrentMediaId(r') == Some(IntToString(songList[0].id));
  }

  class PlayerScreenViewModel {
    /** The song catalogue the app plays. */
    const songList: seq<Song>
    /** `_playerScreenState.value` */
    var playerScreenState: PlayerScreenState
    /** Whether `setupPlayer` has registered the listener and put the initial state on screen. */
    ghost var isSetUp: bool

    /** After setup the catalogue is on screen, and so is the current song when there is one. */
    ghost predicate Valid()
      reads this
    {
      isSetUp ==> playerScreenState.playlist == songList && CurrentInPlaylist(playerScreenState)
    }

    constructor (songList: seq<Song>)
      ensures this.songList == songList && playerScreenState == PlayerScreenState() && !isSetUp
      ensures Valid()
    {
      this.songList := songList;
      playerScreenState := PlayerScreenState();
      isSetUp := false;
    }

    /** `updatePlayerScreenState(update)` */
    method UpdatePlayerScreenState(update: PlayerScreenState -> PlayerScreenState)
      modifies this`playerScreenState
      ensures playerScreenState == update(old(playerScreenState))
    {
      playerScreenState := update(playerScreenState);
    }

    /**
     * `setupPlayer()`, given the controller (null while it is not
     * available, which makes the call a no-op). The progress job's first
     * step runs at once, before its first delay.
     */
    method SetupPlayer(controller: Player?)
      requires Valid()
      modifies this, controller
      ensures controller == null ==> unchanged(this)
      ensures controller != null ==> Issued(controller, SetupCommands(songList, old(controller.record)))
      ensures controller != null ==> isSetUp
      ensures controller != null ==>
        playerScreenState == PollStep(SetInitialPlayerScreenState(songList, old(playerScreenState), controller.record, controller), controller.record)
      ensures Valid()
    {
      if controller == null {
        return;
      }
      var player := controller;
      IssueSetupCommands(player, songList);
      isSetUp := true;
      var songs, record := songList, player.record;
      UpdatePlayerScreenState(s => SetInitialPlayerScreenState(songs, s, record, player));
      UpdatePlayerScreenState(s => PollStep(s, record));
    }

    /** A listener callback, delivered to the view model. */
    method HandleEvent(e: PlayerEvent)
      requires Valid()
      modifies this`playerScreenState
      ensures playerScreenState == OnPlayerEvent(songList, old(playerScreenState), e)
      ensures Valid()
    {
      var songs := songList;
      UpdatePlayerScreenState(s => OnPlayerEvent(songs, s, e));
      if isSetUp {
        OnPlayerEventKeepsCurrentInPlaylist(songList, old(playerScreenState), e);
      }
    }

    /** One step of the progress job. */
    method PollProgress(player: Player)
      requires Valid()
      modifies this`playerScreenState
      ensures playerScreenState == PollStep(old(playerScreenState), player.record)
      ensures Valid()
    {
      var record := player.record;
      UpdatePlayerScreenState(s => PollStep(s, record));
    }
  }
}
