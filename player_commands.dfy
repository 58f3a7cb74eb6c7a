/**
 * What each UI control asks of the player. The `...Commands` functions
 * state, for a player record, the exact commands a control issues and in
 * which order; the methods issue them to a `Player` one call at a time, as
 * the listener bodies do, and are proved to issue exactly those. The same
 * routines serve VideoMate's `PlayerControlsListener` (final and starter)
 * and the control lambdas of MusicMate's view model.
 */
module PlayerCommands {
  import opened Wrappers
  import opened KotlinInt
  import opened Media
  import opened MediaPlayer

  /** The player's log grew by exactly `cmds`, and its record went through their effects. */
  twostate predicate Issued(player: Player, cmds: seq<Command>)
    reads player
  {
    player.log == old(player.log) + cmds && player.record == Replay(old(player.record), cmds)
  }

  lemma ReplayAppend(r: PlayerRecord, cs: seq<Command>, c: Command)
    ensures Replay(r, cs + [c]) == Effect(Replay(r, cs), c)
  {
    assert (cs + [c])[..|cs|] == cs;
  }

  /**
   * Issuing one run of commands and then another leaves the log and the
   * record that issuing the two runs joined leaves.
   */
  lemma IssuedInTwoRuns(r: PlayerRecord, log: seq<Command>, first: seq<Command>, rest: seq<Command>)
    ensures (log + first) + rest == log + (first + rest)
    ensures Replay(Replay(r, first), rest) == Replay(r, first + rest)
  {
    ReplayConcat(r, first, rest);
  }

  /** Replaying two runs of commands one after the other is replaying them joined. */
  lemma {:induction false} ReplayConcat(r: PlayerRecord, first: seq<Command>, rest: seq<Command>)
    ensures Replay(r, first + rest) == Replay(Replay(r, first), rest)
    decreases |rest|
  {
    if rest == [] {
      assert first + rest == first;
    } else {
      var last := rest[|rest| - 1];
      var init := rest[..|rest| - 1];
      assert first + rest == (first + init) + [last];
      assert rest == init + [last];
      ReplayAppend(r, first + init, last);
      ReplayAppend(Replay(r, first), init, last);
      ReplayConcat(r, first, init);
    }
  }

  /**
   * The handlers' recovery step: a player that failed drops back to
   * STATE_IDLE, so a prepare is issued exactly when the player is idle.
   */
  function PrepareIfIdle(state: PlaybackState): (cs: seq<Command>)
    ensures Prepare in cs <==> state == Idle
    ensures forall c | c in cs :: c == Prepare
    ensures |cs| <= 1
  {
    if state == Idle then [Prepare] else []
  }

  /** `if (player.playbackState == Player.STATE_IDLE) player.prepare()` */
  method PrepareIfIdleStep(player: Player)
    modifies player
    ensures Issued(player, PrepareIfIdle(old(player.record.playbackState)))
  {
    if player.record.playbackState == Idle {
      player.Issue(Prepare);
      ReplayAppend(old(player.record), [], Prepare);
      assert [] + [Prepare] == [Prepare];
    }
  }

  /** The step every handler ends with: prepare the player if it is idle, then issue `c`. */
  method PrepareIfIdleThen(player: Player, c: Command)
    modifies player
    ensures Issued(player, PrepareIfIdle(old(player.record.playbackState)) + [c])
  {
    ghost var r0 := player.record;
    PrepareIfIdleStep(player);
    ReplayAppend(r0, PrepareIfIdle(r0.playbackState), c);
    player.Issue(c);
  }

  /**
   * Preparing an idle player and registering the listener leave the player
   * prepared and otherwise as it was.
   */
  lemma PrepareAndListenRecord(r: PlayerRecord)
    ensures Replay(r, PrepareIfIdle(r.playbackState) + [AddListener]) == Prepared(r)
  {
    if r.playbackState == Idle {
      assert PrepareIfIdle(r.playbackState) + [AddListener] == [Prepare] + [AddListener];
      ReplayAppend(r, [], Prepare);
      ReplayAppend(r, [Prepare], AddListener);
    } else {
      assert PrepareIfIdle(r.playbackState) + [AddListener] == [] + [AddListener];
      ReplayAppend(r, [], AddListener);
    }
  }

  /** `onPlayPause`: pause when playing; otherwise prepare if idle, then play. */
  function PlayPauseCommands(r: PlayerRecord): (cs: seq<Command>)
    ensures r.isPlaying ==> cs == [Pause]
    ensures !r.isPlaying ==> |cs| >= 1 && cs[|cs| - 1] == Play && Pause !in cs
    ensures Prepare in cs <==> !r.isPlaying && r.playbackState == Idle
    ensures Prepare in cs ==> cs == [Prepare, Play]
    ensures !r.isPlaying && r.playbackState != Idle ==> cs == [Play]
  {
    if r.isPlaying then [Pause] else PrepareIfIdle(r.playbackState) + [Play]
  }

  /**
   * The button toggles: on a paused player that is READY, a first press
   * plays and, since `play()` is masked at once, a second press pauses.
   */
  lemma PlayPauseToggles(r: PlayerRecord)
    requires r.playbackState == Ready && !r.isPlaying
    ensures PlayPauseCommands(r) == [Play]
    ensures PlayPauseCommands(Replay(r, PlayPauseCommands(r))) == [Pause]
  {
  }

  predicate IsSkip(c: Command)
  {
    c == SeekToPreviousMediaItem || c == SeekToNextMediaItem
  }

  /** `onSkipPrevious` / `onSkipNext`: prepare if idle, always before the skip. */
  function SkipCommands(state: PlaybackState, skip: Command): (cs: seq<Command>)
    requires IsSkip(skip)
    ensures |cs| >= 1 && cs[|cs| - 1] == skip
    ensures Prepare in cs <==> state == Idle
    ensures state == Idle ==> cs == [Prepare, skip]
    ensures state != Idle ==> cs == [skip]
  {
    PrepareIfIdle(state) + [skip]
  }

  /**
   * `onSeek(seconds)`: nothing while the duration is unknown; otherwise a
   * seek to the whole seconds, in milliseconds.
   */
  function SeekCommands(r: PlayerRecord, seconds: real): (cs: seq<Command>)
    ensures r.duration == TIME_UNSET <==> cs == []
    ensures r.duration != TIME_UNSET ==> cs == [SeekTo(SecondsToMillis(FloatToLong(seconds)))]
    ensures r.duration != TIME_UNSET && 0.0 <= seconds < 1_000_000_000.0 ==>
      cs == [SeekTo(seconds.Floor * 1000)]
  {
    if r.duration != TIME_UNSET then [SeekTo(SecondsToMillis(FloatToLong(seconds)))] else []
  }

  /**
   * The seeks of `onVideoClick`'s loop over indices `from` onward, with
   * `current` the player's current index when the loop reaches `from`.
   */
  function VideoClickSeeks(ids: seq<string>, mediaId: string, from: nat, current: int): (cs: seq<Command>)
    ensures from >= |ids| ==> cs == []
    ensures from < |ids| ==> |cs| <= |ids| - from
    ensures forall k | 0 <= k < |cs| ::
      cs[k].SeekToItem? && from <= cs[k].index < |ids| && ids[cs[k].index] == mediaId && cs[k].positionMs == 0
    decreases |ids| - from
  {
    if from >= |ids| then []
    else if ids[from] == mediaId && from != current then
      var rest := VideoClickSeeks(ids, mediaId, from + 1, from);
      assert forall k | 1 <= k < |rest| + 1 :: ([SeekToItem(from, 0)] + rest)[k] == rest[k - 1];
      [SeekToItem(from, 0)] + rest
    else VideoClickSeeks(ids, mediaId, from + 1, current)
  }

  /**
   * The loop seeks, in increasing index order, to every matching index
   * that is not the current one at that moment. There is no early exit,
   * and a seek makes its index current, so the starting index is itself
   * sought exactly when an earlier index matched.
   */
  lemma {:induction false} VideoClickSeeksSpec(ids: seq<string>, mediaId: string, from: nat, current: int)
    ensures var cs := VideoClickSeeks(ids, mediaId, from, current);
      && (forall c | c in cs :: c.SeekToItem? && from <= c.index < |ids| && ids[c.index] == mediaId && c.positionMs == 0)
      && (forall i | from <= i < |ids| && ids[i] == mediaId && i != current :: SeekToItem(i, 0) in cs)
      && (SeekToItem(current, 0) in cs <==>
           from <= current < |ids| && ids[current] == mediaId && exists j | from <= j < current :: ids[j] == mediaId)
      && (forall k | 0 <= k < |cs| - 1 :: cs[k].index < cs[k + 1].index)
    decreases |ids| - from
  {
    if from < |ids| {
      if ids[from] == mediaId && from != current {
        VideoClickSeeksSpec(ids, mediaId, from + 1, from);
        var rest := VideoClickSeeks(ids, mediaId, from + 1, from);
        assert forall k | 1 <= k < |rest| + 1 :: ([SeekToItem(from, 0)] + rest)[k] == rest[k - 1];
      } else {
        VideoClickSeeksSpec(ids, mediaId, from + 1, current);
      }
    }
  }

  /** `onVideoClick(video)`: the seeks, then prepare if idle, then play. */
  function VideoClickCommands(r: PlayerRecord, videoId: int): (cs: seq<Command>)
    ensures |cs| >= 1 && cs[|cs| - 1] == Play
    ensures Prepare in cs <==> r.playbackState == Idle
    ensures r.playbackState == Idle ==> |cs| >= 2 && cs[|cs| - 2] == Prepare
    ensures |cs| >= |PrepareIfIdle(r.playbackState)| + 1
    ensures cs[..|cs| - |PrepareIfIdle(r.playbackState)| - 1] == VideoClickSeeks(r.mediaIds, IntToString(videoId), 0, r.currentIndex)
  {
    VideoClickSeeksSpec(r.mediaIds, IntToString(videoId), 0, r.currentIndex);
    VideoClickSeeks(r.mediaIds, IntToString(videoId), 0, r.currentIndex) + (PrepareIfIdle(r.playbackState) + [Play])
  }

  /**
   * The index `onSongClick`'s loop seeks to: the first index from `from`
   * on whose media id matches and that is not the current index (the loop
   * breaks after that one seek).
   */
  function SongClickTarget(ids: seq<string>, mediaId: string, from: nat, current: int): (t: Option<int>)
    ensures t.Some? ==> from <= t.value < |ids| && ids[t.value] == mediaId && t.value != current
    ensures t.Some? ==> forall j | from <= j < t.value :: ids[j] != mediaId || j == current
    ensures t.None? ==> forall j | from <= j < |ids| :: ids[j] != mediaId || j == current
    decreases |ids| - from
  {
    if from >= |ids| then None
    else if ids[from] == mediaId && from != current then Some(from)
    else SongClickTarget(ids, mediaId, from + 1, current)
  }

  /** `onSongClick(song)`: at most one seek, then prepare if idle, then play. */
  function SongClickCommands(r: PlayerRecord, songId: int): (cs: seq<Command>)
    ensures |cs| >= 1 && cs[|cs| - 1] == Play
    ensures Prepare in cs <==> r.playbackState == Idle
    ensures r.playbackState == Idle ==> |cs| >= 2 && cs[|cs| - 2] == Prepare
    ensures |cs| >= |PrepareIfIdle(r.playbackState)| + 1
    ensures var t := SongClickTarget(r.mediaIds, IntToString(songId), 0, r.currentIndex);
      cs[..|cs| - |PrepareIfIdle(r.playbackState)| - 1] == (if t.Some? then [SeekToItem(t.value, 0)] else [])
  {
    var target := SongClickTarget(r.mediaIds, IntToString(songId), 0, r.currentIndex);
    (if target.Some? then [SeekToItem(target.value, 0)] else []) + (PrepareIfIdle(r.playbackState) + [Play])
  }

  predicate NoDuplicates(ids: seq<string>)
  {
    forall i, j | 0 <= i < j < |ids| :: ids[i] != ids[j]
  }

  /** With no match after `from` other than at `current`, the loop seeks nowhere. */
  lemma {:induction false} NoMatchNoSeeks(ids: seq<string>, mediaId: string, from: nat, current: int)
    requires forall j | from <= j < |ids| :: ids[j] != mediaId || j == current
    ensures VideoClickSeeks(ids, mediaId, from, current) == []
    decreases |ids| - from
  {
    if from < |ids| {
      NoMatchNoSeeks(ids, mediaId, from + 1, current);
    }
  }

  /** With exactly one matching index `i` from `from` on, the loop seeks to `i` alone, unless it is current. */
  lemma {:induction false} SeeksOfUniqueMatch(ids: seq<string>, mediaId: string, from: nat, current: int, i: int)
    requires from <= i < |ids| && ids[i] == mediaId
    requires forall j | from <= j < |ids| && j != i :: ids[j] != mediaId
    ensures VideoClickSeeks(ids, mediaId, from, current) == if i != current then [SeekToItem(i, 0)] else []
    decreases i - from
  {
    if from < i {
      SeeksOfUniqueMatch(ids, mediaId, from + 1, current, i);
    } else if i != current {
      NoMatchNoSeeks(ids, mediaId, i + 1, i);
    } else {
      NoMatchNoSeeks(ids, mediaId, i, current);
    }
  }

  /**
   * When no media id occurs twice, `onVideoClick`'s loop seeks at most once:
   * to the matching index, unless it is already the current one.
   */
  lemma VideoClickSeeksDistinct(ids: seq<string>, mediaId: string, current: int)
    requires NoDuplicates(ids)
    ensures forall i | 0 <= i < |ids| && ids[i] == mediaId ::
      VideoClickSeeks(ids, mediaId, 0, current) == if i != current then [SeekToItem(i, 0)] else []
    ensures mediaId !in ids ==> VideoClickSeeks(ids, mediaId, 0, current) == []
  {
    forall i | 0 <= i < |ids| && ids[i] == mediaId
      ensures VideoClickSeeks(ids, mediaId, 0, current) == if i != current then [SeekToItem(i, 0)] else []
    {
      SeeksOfUniqueMatch(ids, mediaId, 0, current, i);
    }
    if mediaId !in ids {
      NoMatchNoSeeks(ids, mediaId, 0, current);
    }
  }

  /** When no media id occurs twice, the video click and the song click issue the same commands. */
  lemma ClicksAgreeOnDistinctIds(r: PlayerRecord, id: int)
    requires NoDuplicates(r.mediaIds)
    ensures VideoClickCommands(r, id) == SongClickCommands(r, id)
  {
    var ids, mediaId := r.mediaIds, IntToString(id);
    VideoClickSeeksDistinct(ids, mediaId, r.currentIndex);
    var target := SongClickTarget(ids, mediaId, 0, r.currentIndex);
    if target.Some? {
      assert ids[target.value] == mediaId;
    } else if mediaId in ids {
      var i :| 0 <= i < |ids| && ids[i] == mediaId;
      assert i == r.currentIndex;
    }
  }

  /** `onSpeedChange`'s new speed: 1 becomes 2, 2 becomes 1, any other speed stays. */
  function SpeedToggle(speed: real): (s: real)
    ensures speed == 1.0 ==> s == 2.0
    ensures speed == 2.0 ==> s == 1.0
    ensures speed != 1.0 && speed != 2.0 ==> s == speed
  {
    if speed == 1.0 then 2.0 else if speed == 2.0 then 1.0 else speed
  }

  /** Toggling twice from 1 or 2 restores the speed. */
  lemma SpeedToggleTwice(speed: real)
    ensures SpeedToggle(SpeedToggle(speed)) == speed
  {
  }

  /** `onSpeedChange`: a speed change only for speeds 1 and 2. */
  function SpeedChangeCommands(r: PlayerRecord): (cs: seq<Command>)
    ensures Replay(r, cs).speed == SpeedToggle(r.speed)
    ensures Replay(r, cs) == r.(speed := SpeedToggle(r.speed))
    ensures cs == [] <==> r.speed != 1.0 && r.speed != 2.0
    ensures |cs| <= 1
  {
    assert Replay(r, [SetPlaybackSpeed(SpeedToggle(r.speed))]) == r.(speed := SpeedToggle(r.speed)) by {
      ReplayAppend(r, [], SetPlaybackSpeed(SpeedToggle(r.speed)));
      assert [] + [SetPlaybackSpeed(SpeedToggle(r.speed))] == [SetPlaybackSpeed(SpeedToggle(r.speed))];
    }
    if r.speed == 1.0 then [SetPlaybackSpeed(2.0)]
    else if r.speed == 2.0 then [SetPlaybackSpeed(1.0)]
    else []
  }

  /** `onRepeat`'s next mode, `(m + 2) % 3`: off -> all -> one -> off. */
  function NextRepeatMode(m: int): (n: int)
    ensures 0 <= m <= 2 ==> 0 <= n <= 2
    ensures m == REPEAT_MODE_OFF ==> n == REPEAT_MODE_ALL
    ensures m == REPEAT_MODE_ALL ==> n == REPEAT_MODE_ONE
    ensures m == REPEAT_MODE_ONE ==> n == REPEAT_MODE_OFF
  {
    Rem(m + 2, 3)
  }

  /** The repeat cycle has period 3 on the three modes, and no shorter one. */
  lemma RepeatModeCycle(m: int)
    requires 0 <= m <= 2
    ensures NextRepeatMode(NextRepeatMode(NextRepeatMode(m))) == m
    ensures NextRepeatMode(m) != m && NextRepeatMode(NextRepeatMode(m)) != m
  {
  }

  /** Toggling shuffle twice gives back the player's record. */
  lemma ShuffleToggleTwice(r: PlayerRecord)
    ensures var r1 := Effect(r, SetShuffleModeEnabled(!r.shuffleModeEnabled));
      Effect(r1, SetShuffleModeEnabled(!r1.shuffleModeEnabled)) == r
  {
  }

  // ---------------------------------------------------------------------------
  // The control bodies, issuing one call at a time.

  method PlayPause(player: Player)
    modifies player
    ensures Issued(player, PlayPauseCommands(old(player.record)))
  {
    if player.record.isPlaying {
      player.Issue(Pause);
    } else {
      PrepareIfIdleThen(player, Play);
    }
  }

  method Skip(player: Player, skip: Command)
    requires IsSkip(skip)
    modifies player
    ensures Issued(player, SkipCommands(old(player.record.playbackState), skip))
  {
    PrepareIfIdleThen(player, skip);
  }

  method SeekToSeconds(player: Player, seconds: real)
    modifies player
    ensures Issued(player, SeekCommands(old(player.record), seconds))
  {
    if player.record.duration != TIME_UNSET {
      player.Issue(SeekTo(SecondsToMillis(FloatToLong(seconds))));
    }
  }

  /**
   * `onForward` / `onRewind`: exactly one nudge command, which moves the
   * position by the player's seek increment, forward or back, within the
   * item, and changes nothing else.
   */
  method Nudge(player: Player, nudge: Command)
    requires nudge == SeekForward || nudge == SeekBack
    modifies player
    ensures Issued(player, [nudge])
    ensures player.record == old(player.record).(currentPosition := player.record.currentPosition)
    ensures nudge == SeekForward ==> player.record.currentPosition == SeekOffset(old(player.record), old(player.record).seekForwardIncrement)
    ensures nudge == SeekBack ==> player.record.currentPosition == SeekOffset(old(player.record), -old(player.record).seekBackIncrement)
  {
    player.Issue(nudge);
    ReplayAppend(old(player.record), [], nudge);
  }

  method VideoClick(player: Player, videoId: int)
    modifies player
    ensures Issued(player, VideoClickCommands(old(player.record), videoId))
  {
    var mediaId := IntToString(videoId);
    var count := |player.record.mediaIds|;
    ghost var r0, log0 := player.record, player.log;
    ghost var seeks := VideoClickSeeks(r0.mediaIds, mediaId, 0, r0.currentIndex);
    ghost var issued: seq<Command> := [];
    var index := 0;
    while index < count
      invariant 0 <= index <= count == |r0.mediaIds|
      invariant player.record.mediaIds == r0.mediaIds
      invariant player.log == log0 + issued
      invariant player.record == Replay(r0, issued)
      invariant player.record.playbackState == r0.playbackState
      invariant issued + VideoClickSeeks(r0.mediaIds, mediaId, index, player.record.currentIndex) == seeks
    {
      ghost var rest := VideoClickSeeks(r0.mediaIds, mediaId, index + 1, index);
      if player.record.mediaIds[index] == mediaId {
        if index != player.record.currentIndex {
          assert VideoClickSeeks(r0.mediaIds, mediaId, index, player.record.currentIndex) == [SeekToItem(index, 0)] + rest;
          assert issued + ([SeekToItem(index, 0)] + rest) == (issued + [SeekToItem(index, 0)]) + rest;
          ReplayAppend(r0, issued, SeekToItem(index, 0));
          player.Issue(SeekToItem(index, 0));
          issued := issued + [SeekToItem(index, 0)];
        }
      }
      index := index + 1;
    }
    assert issued == seeks;
    ghost var tail := PrepareIfIdle(r0.playbackState) + [Play];
    PrepareIfIdleThen(player, Play);
    IssuedInTwoRuns(r0, log0, seeks, tail);
  }

  method SongClick(player: Player, songId: int)
    modifies player
    ensures Issued(player, SongClickCommands(old(player.record), songId))
  {
    var mediaId := IntToString(songId);
    var count := |player.record.mediaIds|;
    ghost var r0, log0 := player.record, player.log;
    ghost var target := SongClickTarget(r0.mediaIds, mediaId, 0, r0.currentIndex);
    ghost var seeks: seq<Command> := [];
    var index := 0;
    while index < count
      invariant 0 <= index <= count == |r0.mediaIds|
      invariant player.record == r0 && player.log == old(player.log)
      invariant SongClickTarget(r0.mediaIds, mediaId, index, r0.currentIndex) == target
      invariant seeks == []
    {
      if player.record.mediaIds[index] == mediaId {
        if index != player.record.currentIndex {
          player.Issue(SeekToItem(index, 0));
          seeks := [SeekToItem(index, 0)];
          ReplayAppend(r0, [], SeekToItem(index, 0));
          assert [] + seeks == seeks;
          break;
        }
      }
      index := index + 1;
    }
    assert seeks == if target.Some? then [SeekToItem(target.value, 0)] else [];
    assert player.record == Replay(r0, seeks) && player.log == log0 + seeks;
    assert player.record.playbackState == r0.playbackState;
    ghost var tail := PrepareIfIdle(r0.playbackState) + [Play];
    PrepareIfIdleThen(player, Play);
    IssuedInTwoRuns(r0, log0, seeks, tail);
  }

  method SpeedChange(player: Player, preferences: PlaybackPreferences)
    modifies player, preferences
    ensures Issued(player, SpeedChangeCommands(old(player.record)))
    ensures player.record.speed == SpeedToggle(old(player.record.speed))
    ensures preferences.playbackSpeed == Some(player.record.speed)
  {
    if player.record.speed == 1.0 {
      player.Issue(SetPlaybackSpeed(2.0));
    } else if player.record.speed == 2.0 {
      player.Issue(SetPlaybackSpeed(1.0));
    }
    preferences.PutSpeed(player.record.speed);
  }

  /** `onShuffle`: `shuffleModeEnabled = !shuffleModeEnabled`. */
  method ToggleShuffle(player: Player)
    modifies player
    ensures Issued(player, [SetShuffleModeEnabled(!old(player.record.shuffleModeEnabled))])
    ensures player.record.shuffleModeEnabled == !old(player.record.shuffleModeEnabled)
  {
    player.Issue(SetShuffleModeEnabled(!player.record.shuffleModeEnabled));
  }

  /** `onRepeat`: `repeatMode = (repeatMode + 2) % 3`. */
  method CycleRepeatMode(player: Player)
    modifies player
    ensures Issued(player, [SetRepeatMode(NextRepeatMode(old(player.record.repeatMode)))])
    ensures player.record.repeatMode == NextRepeatMode(old(player.record.repeatMode))
  {
    var availableRepeatModesCount := 3;
    player.Issue(SetRepeatMode(Rem(player.record.repeatMode + 2, availableRepeatModesCount)));
  }
}
