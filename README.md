# MusicMate and VideoMate player logic in Dafny

MusicMate and VideoMate are two small Android players built on Media3. Each
has a `PlayerScreenViewModel` that:

- connects to a `MediaController`;
- loads the song or video catalogue into it as `MediaItem`s;
- prepares it when it is idle;
- mirrors what the player reports into one immutable `PlayerScreenState`
  snapshot, which the Compose screen renders.

The screen's buttons reach the player through a controls listener. Play/pause,
previous and next, seek to a given second, forward and rewind, jump to a
clicked catalogue entry, toggle the playback speed between 1x and 2x and save
it in `SharedPreferences`, and toggle shuffle and cycle the repeat mode all go
this way. A listener left unbound does nothing. Durations are shown as
`mm:ss` by `toFormattedDuration`.

This project models that logic:

- **Kotlin arithmetic and formatting** (`KotlinInt`). Truncating `/` and `%`,
  `Float.toInt`/`toLong`, the saturating `TimeUnit.SECONDS.toMillis`,
  `Int.toString` and `"%0wd"`.
- **The duration formatter** (`DurationFormat`). It is proved to round-trip,
  and its output length is pinned down.
- **The catalogue records** (`Media`, `VideoCatalogue`). These are the song
  and video records, the `http`-or-raw-resource choice of media URI, the
  lookup of the current entry by media id, and the eight-entry video list.
- **The player** (`MediaPlayer`). The apps see it as a value record plus a
  log of issued commands. A command changes the record where Media3 masks
  its effect before returning: `play` makes it play when ready (and
  playing at once when READY), `pause` stops it, setters set their value,
  seeks move the
  position (forward and back by the player's increments, clamped to the
  known duration) or the current item (next and previous in playlist order,
  wrapping only under repeat-all), and `prepare` takes an idle player out of
  `STATE_IDLE`. Everything else comes back through listener callbacks.
- **The command sequences behind each control** (`PlayerCommands`). Each one
  is a specification function. A method issues it, and the properties are
  stated about the function.
- **The controls listeners** (`VideoMateControls`, `StarterVideoMateControls`
  and `MusicMateControls`). Each is a datatype with an unbound (no-op)
  variant and a bound variant.
- **The screen-state snapshots** (`*State`). Every default is stated.
- **The view models** (`MusicMateViewModel`, `VideoMateViewModel`,
  `StarterMusicMateViewModel`). These are classes whose `playerScreenState`
  field is replaced by a pure reducer for each callback. `SetupPlayer` issues
  the setup commands, binds the controls and takes the first progress
  sample. The final apps launch the progress job on `Dispatchers.Main.immediate`,
  so that first sample is taken synchronously inside `setupPlayer`.

The VideoMate view model follows the speed-aware version of the course
(`s7-building-video-player-pt-2`). That version saves the speed, restores it
on setup, shows it as `currentSpeed`, and moves the shown position only on a
seek discontinuity. The final VideoMate listener's `onVideoClick` has no
early exit. It seeks to every entry whose media id matches, skipping the
current one, and then plays. MusicMate's `onSongClick` stops at the first
match. `PlayerCommands.ClicksAgreeOnDistinctIds` and
`VideoMateViewModel.CatalogueClick` prove that the two agree whenever the
loaded media ids are distinct, as they are for the video catalogue.

## Model

| member | source | states |
|---|---|---|
| `KotlinInt.Rem` | source-code/final-project/VideoMate/app/src/main/java/com/droidcon/videomate/ui/Extensions.kt:9 | Kotlin `%`: quotient times divisor plus remainder gives the dividend back; the remainder has the dividend's sign and is smaller than the divisor |
| `KotlinInt.Div` | source-code/final-project/VideoMate/app/src/main/java/com/droidcon/videomate/ui/Extensions.kt:8-9 | Kotlin `/`: the quotient times the divisor is the largest multiple not beyond the dividend, on the dividend's side of zero (truncation toward zero) |
| `KotlinInt.MillisToMinutes` | source-code/final-project/VideoMate/app/src/main/java/com/droidcon/videomate/ui/Extensions.kt:8 | whole minutes of a millisecond count equal whole minutes of its whole seconds, so `TimeUnit.MILLISECONDS.toMinutes` and seconds `/ 60` agree |
| `KotlinInt.FloatToInt` | s7-building-video-player-pt-2/code-challenge-1-solution/PlayerScreenViewModel.kt:76 | `Float.toInt` always lands in the 32-bit range: it truncates an in-range value toward zero, of either sign, and saturates at `Int.MAX_VALUE` and `Int.MIN_VALUE` beyond |
| `KotlinInt.FloatToLong` | source-code/final-project/VideoMate/app/src/main/java/com/droidcon/videomate/ui/PlayerControlsListener.kt:55 | `Float.toLong` always lands in the 64-bit range: it truncates an in-range value toward zero, of either sign, and saturates at `Long.MAX_VALUE` and `Long.MIN_VALUE` beyond |
| `KotlinInt.SecondsToMillis` | source-code/final-project/VideoMate/app/src/main/java/com/droidcon/videomate/ui/PlayerControlsListener.kt:55 | `TimeUnit.SECONDS.toMillis` stays in the 64-bit range: it multiplies by 1000 when that does not overflow, and gives `Long.MAX_VALUE` or `Long.MIN_VALUE` when it would |
| `KotlinInt.NatToString` | source-code/final-project/VideoMate/app/src/main/java/com/droidcon/videomate/ui/PlayerControlsListener.kt:69 | decimal text of a natural number: digits only, one digit iff below 10, at most two iff below 100, no leading zero |
| `KotlinInt.DigitsValueOfNatToString` | source-code/final-project/VideoMate/app/src/main/java/com/droidcon/videomate/ui/PlayerControlsListener.kt:69 | reading the decimal text of n back as digits gives n |
| `KotlinInt.IntToString` | source-code/final-project/VideoMate/app/src/main/java/com/droidcon/videomate/ui/PlayerControlsListener.kt:69 | `Int.toString`: non-empty, digits for non-negative values, a minus sign then digits for negative ones |
| `KotlinInt.ParseIntToString` | source-code/final-project/VideoMate/app/src/main/java/com/droidcon/videomate/ui/PlayerControlsListener.kt:69 | parsing `Int.toString(n)` gives n back, for every integer |
| `KotlinInt.IntToStringInjective` | source-code/final-project/VideoMate/app/src/main/java/com/droidcon/videomate/ui/PlayerControlsListener.kt:69 | two ids have the same text iff they are equal, so matching media ids by text is matching by id |
| `KotlinInt.FormatZeroPadded` | source-code/final-project/VideoMate/app/src/main/java/com/droidcon/videomate/ui/Extensions.kt:7 | `"%0wd"` output is `w` characters or the unpadded length when longer, parses back to the value and holds no colon; it is all digits for a non-negative value, and a minus followed by digits otherwise |
| `KotlinInt.LeadingZerosValue` | source-code/final-project/VideoMate/app/src/main/java/com/droidcon/videomate/ui/Extensions.kt:7 | zero padding in front of digits does not change their value |
| `KotlinInt.PaddedParses` | source-code/final-project/VideoMate/app/src/main/java/com/droidcon/videomate/ui/Extensions.kt:7 | a sign, zero padding and the digits of n parse back to plus or minus n |
| `DurationFormat.SplitAtColon` | source-code/final-project/VideoMate/app/src/main/java/com/droidcon/videomate/ui/Extensions.kt:7 | splitting at the first colon gives back text that rejoins to the input, and fails iff there is no colon |
| `DurationFormat.SplitAtColonAppend` | source-code/final-project/VideoMate/app/src/main/java/com/droidcon/videomate/ui/Extensions.kt:7 | text without a colon, a colon and anything splits back into those two parts |
| `DurationFormat.DurationFields` | source-code/final-project/VideoMate/app/src/main/java/com/droidcon/videomate/ui/Extensions.kt:5-10 | for every integer and both time units, the two fields of `toFormattedDuration` read back as `toMinutes` and `toSeconds % 60` |
| `DurationFormat.SecondsRoundTrip` | source-code/final-project/VideoMate/app/src/main/java/com/droidcon/videomate/ui/Extensions.kt:5-10 | minutes times 60 plus seconds gives the duration back; for a non-negative duration the seconds field is within 0..59 |
| `DurationFormat.MillisecondsRoundTrip` | source-code/final-project/VideoMate/app/src/main/java/com/droidcon/videomate/ui/Extensions.kt:5-10 | for a millisecond duration the two fields recompose the whole seconds `ms / 1000` |
| `DurationFormat.MillisecondsAsSeconds` | source-code/final-project/VideoMate/app/src/main/java/com/droidcon/videomate/ui/Extensions.kt:5-10 | formatting milliseconds gives the same text as formatting their whole seconds |
| `DurationFormat.DurationLength` | source-code/final-project/VideoMate/app/src/main/java/com/droidcon/videomate/ui/Extensions.kt:7-8 | for a non-negative duration in seconds (the default unit) the text is the minutes' width (at least 2) plus 3; it is 5 characters iff under 100 minutes |
| `DurationFormat.ToSeconds` | source-code/final-project/VideoMate/app/src/main/java/com/droidcon/videomate/ui/Extensions.kt:9 | `toSeconds` of seconds is the input; of milliseconds it is the truncating quotient by 1000, the whole seconds of a positive or a negative input; it keeps the sign and never grows the magnitude |
| `DurationFormat.ToMinutes` | source-code/final-project/VideoMate/app/src/main/java/com/droidcon/videomate/ui/Extensions.kt:8 | `toMinutes` is the whole minutes of `toSeconds`, truncated toward zero, and never negative for a non-negative duration |
| `DurationFormat.ToFormattedDuration` | source-code/final-project/VideoMate/app/src/main/java/com/droidcon/videomate/ui/Extensions.kt:5-10 | for a non-negative duration the text is at least 5 characters with its only colon three from the end |
| `DurationFormat.FloatToFormattedDuration` | s5-background-playback/code-challenge-solution/PlaybackControls.kt:139 | a `Float` such as the slider value is shown as its whole part: for a non-negative value in the Long range the text is that of its floor |
| `Media.ToMediaItem` | source-code/final-project/MusicMate/app/src/main/java/com/droidcon/musicmate/PlayerScreenViewModel.kt:63-87 | the media id is the entry id's text; the URI is a web URI iff the source starts with `http`, otherwise the raw resource named by the source |
| `Media.FindById` | source-code/final-project/MusicMate/app/src/main/java/com/droidcon/musicmate/PlayerScreenViewModel.kt:97 | the entry found has the reported media id and is in the list; nothing is found iff no entry matches; the first matching entry wins |
| `Media.FindByIdUnique` | source-code/final-project/MusicMate/app/src/main/java/com/droidcon/musicmate/PlayerScreenViewModel.kt:97 | with distinct ids, looking up an entry's own media id finds exactly that entry |
| `VideoCatalogue.VideoList` | source-code/final-project/VideoMate/app/src/main/java/com/droidcon/videomate/model/VideoList.kt:3-68 | the catalogue holds eight entries whose ids run from 1 to 8 in list order |
| `VideoCatalogue.VideoListShape` | source-code/final-project/VideoMate/app/src/main/java/com/droidcon/videomate/model/VideoList.kt:3-68 | the catalogue has 8 videos with ids 1 to 8 in order, all distinct, and no negative duration |
| `VideoCatalogue.LocalVideos` | source-code/final-project/VideoMate/app/src/main/java/com/droidcon/videomate/model/VideoList.kt:3-68 | exactly videos 3, 5 and 6 are bundled raw resources; the rest stream over http |
| `VideoCatalogue.ErrorTestEntry` | source-code/final-project/VideoMate/app/src/main/java/com/droidcon/videomate/model/VideoList.kt:45-52 | the sixth entry is the deliberately unplayable local source used to show playback errors |
| `MediaPlayer.CurrentMediaId` | source-code/final-project/MusicMate/app/src/main/java/com/droidcon/musicmate/PlayerScreenViewModel.kt:162 | there is a current media id iff the current index is in range, and it is that item's id |
| `MediaPlayer.MediaIds` | source-code/final-project/MusicMate/app/src/main/java/com/droidcon/musicmate/PlayerScreenViewModel.kt:80 | the media ids of a loaded list, one per item and in order |
| `MediaPlayer.Prepared` | source-code/final-project/VideoMate/app/src/main/java/com/droidcon/videomate/ui/PlayerControlsListener.kt:32-34 | `prepare` moves an idle player to ENDED when it has no items and to BUFFERING otherwise, changes nothing else, and does nothing to a player that is not idle |
| `MediaPlayer.SeekOffset` | source-code/final-project/VideoMate/app/src/main/java/com/droidcon/videomate/ui/PlayerControlsListener.kt:59-65 | a forward or back seek lands at the current position plus the offset when that is in range; past a known duration it lands at the duration, and before 0 at 0 |
| `MediaPlayer.NavigationIndices` | source-code/final-project/VideoMate/app/src/main/java/com/droidcon/videomate/ui/PlayerControlsListener.kt:39-51 | next and previous are the neighbouring items; past either end they wrap iff repeat mode is ALL, and an empty playlist has neither |
| `MediaPlayer.Effect` | source-code/final-project/VideoMate/app/src/main/java/com/droidcon/videomate/ui/PlayerControlsListener.kt:28-89 | `play` sets play-when-ready and makes the player playing iff it is READY; `pause` clears both; no other command changes them; no command changes the duration or buffered position, and only `prepare` changes the playback state |
| `MediaPlayer.Replay` | source-code/final-project/VideoMate/app/src/main/java/com/droidcon/videomate/ui/PlayerControlsListener.kt:28-89 | replaying any command sequence keeps the duration and buffered position, the playback state when it holds no `prepare`, and the playing flags when it holds no `play` or `pause` |
| `MediaPlayer.Player.constructor` | source-code/final-project/MusicMate/app/src/main/java/com/droidcon/musicmate/PlayerScreenViewModel.kt:32-39 | a fresh controller has the given state and an empty command log |
| `MediaPlayer.Player.Issue` | source-code/final-project/VideoMate/app/src/main/java/com/droidcon/videomate/ui/PlayerControlsListener.kt:28-89 | issuing a command appends it to the log and applies its immediate effect |
| `MediaPlayer.PlaybackPreferences.constructor` | s7-building-video-player-pt-2/code-challenge-1-solution/PlayerScreenViewModel.kt:43-44 | the preferences store starts with the saved speed, if any |
| `MediaPlayer.PlaybackPreferences.GetSpeed` | s7-building-video-player-pt-2/code-challenge-1-solution/PlayerScreenViewModel.kt:61 | `getFloat` returns the saved speed, or the default when none was saved |
| `MediaPlayer.PlaybackPreferences.PutSpeed` | source-code/final-project/VideoMate/app/src/main/java/com/droidcon/videomate/ui/PlayerControlsListener.kt:86-88 | `putFloat` makes the given speed the saved one |
| `PlayerCommands.ReplayConcat` | source-code/final-project/VideoMate/app/src/main/java/com/droidcon/videomate/ui/PlayerControlsListener.kt:28-89 | replaying two command sequences one after the other equals replaying their concatenation |
| `PlayerCommands.PrepareIfIdle` | source-code/final-project/VideoMate/app/src/main/java/com/droidcon/videomate/ui/PlayerControlsListener.kt:32-34 | `prepare` is issued iff the player is idle, and at most once |
| `PlayerCommands.PrepareIfIdleStep` | source-code/final-project/VideoMate/app/src/main/java/com/droidcon/videomate/ui/PlayerControlsListener.kt:32-34 | issues `prepare` iff the player is idle, and nothing else |
| `PlayerCommands.PrepareIfIdleThen` | source-code/final-project/VideoMate/app/src/main/java/com/droidcon/videomate/ui/PlayerControlsListener.kt:32-36 | issues `prepare` iff the player is idle, then the given command |
| `PlayerCommands.PrepareAndListenRecord` | s7-building-video-player-pt-2/code-challenge-1-solution/PlayerScreenViewModel.kt:64-67 | preparing if idle and registering the listener leave the player prepared and otherwise as it was |
| `PlayerCommands.PlayPauseCommands` | source-code/final-project/VideoMate/app/src/main/java/com/droidcon/videomate/ui/PlayerControlsListener.kt:28-37 | a playing player is only paused; otherwise it is played, after a `prepare` iff it is idle, and never paused; a paused player that is not idle is only played |
| `PlayerCommands.PlayPauseToggles` | source-code/final-project/VideoMate/app/src/main/java/com/droidcon/videomate/ui/PlayerControlsListener.kt:28-37 | on a paused READY player the first press issues only `play` and the second, on the resulting player, only `pause` |
| `PlayerCommands.SkipCommands` | source-code/final-project/VideoMate/app/src/main/java/com/droidcon/videomate/ui/PlayerControlsListener.kt:39-51 | a skip ends with the skip command itself, preceded by `prepare` iff the player is idle |
| `PlayerCommands.SeekCommands` | source-code/final-project/VideoMate/app/src/main/java/com/droidcon/videomate/ui/PlayerControlsListener.kt:53-57 | nothing is issued while the duration is unset; otherwise one seek to the truncated seconds in milliseconds, exactly `seconds * 1000` rounded down in the normal range |
| `PlayerCommands.VideoClickSeeks` | source-code/final-project/VideoMate/app/src/main/java/com/droidcon/videomate/ui/PlayerControlsListener.kt:68-74 | the loop issues at most one seek per remaining index, each a `seekTo(index, 0)` to an item whose media id is the clicked one |
| `PlayerCommands.VideoClickSeeksSpec` | source-code/final-project/VideoMate/app/src/main/java/com/droidcon/videomate/ui/PlayerControlsListener.kt:68-74 | the seeks go, in increasing index order and to position 0, to every item with the clicked id except the current one, and to no other item |
| `PlayerCommands.NoMatchNoSeeks` | source-code/final-project/VideoMate/app/src/main/java/com/droidcon/videomate/ui/PlayerControlsListener.kt:68-74 | when no later item has the clicked id, no seek is issued |
| `PlayerCommands.SeeksOfUniqueMatch` | source-code/final-project/VideoMate/app/src/main/java/com/droidcon/videomate/ui/PlayerControlsListener.kt:68-74 | when exactly one item has the clicked id, there is one seek to it, or none if it is current |
| `PlayerCommands.VideoClickSeeksDistinct` | source-code/final-project/VideoMate/app/src/main/java/com/droidcon/videomate/ui/PlayerControlsListener.kt:68-74 | with distinct media ids, a click seeks once to the matching item unless it is current, and not at all when nothing matches |
| `PlayerCommands.VideoClickCommands` | source-code/final-project/VideoMate/app/src/main/java/com/droidcon/videomate/ui/PlayerControlsListener.kt:67-79 | a video click issues exactly the loop's seeks, then `prepare` iff the player is idle, then `play` |
| `PlayerCommands.SongClickTarget` | source-code/final-project/MusicMate/app/src/main/java/com/droidcon/musicmate/PlayerScreenViewModel.kt:195-202 | the target is the first non-current item with the clicked id; there is none iff no non-current item has it |
| `PlayerCommands.SongClickCommands` | source-code/final-project/MusicMate/app/src/main/java/com/droidcon/musicmate/PlayerScreenViewModel.kt:194-207 | a song click issues one seek to the loop's target when it has one and none otherwise, then `prepare` iff the player is idle, then `play` |
| `PlayerCommands.ClicksAgreeOnDistinctIds` | source-code/final-project/MusicMate/app/src/main/java/com/droidcon/musicmate/PlayerScreenViewModel.kt:194-207 | with distinct media ids the video click (no early exit) and the song click (stops at the first match) issue the same commands |
| `PlayerCommands.SpeedToggle` | source-code/final-project/VideoMate/app/src/main/java/com/droidcon/videomate/ui/PlayerControlsListener.kt:82-85 | speed 1 becomes 2, speed 2 becomes 1, and any other speed is kept |
| `PlayerCommands.SpeedToggleTwice` | source-code/final-project/VideoMate/app/src/main/java/com/droidcon/videomate/ui/PlayerControlsListener.kt:81-89 | toggling the speed twice restores it |
| `PlayerCommands.SpeedChangeCommands` | source-code/final-project/VideoMate/app/src/main/java/com/droidcon/videomate/ui/PlayerControlsListener.kt:82-85 | at most one command is issued; it leaves the player at the toggled speed with everything else as it was; nothing is issued iff the speed is neither 1 nor 2 |
| `PlayerCommands.NextRepeatMode` | source-code/final-project/MusicMate/app/src/main/java/com/droidcon/musicmate/PlayerScreenViewModel.kt:211-214 | repeat mode goes off to all, all to one, one to off, and stays within the three modes |
| `PlayerCommands.RepeatModeCycle` | source-code/final-project/MusicMate/app/src/main/java/com/droidcon/musicmate/PlayerScreenViewModel.kt:211-214 | three repeat presses return to the starting mode, and one or two never do |
| `PlayerCommands.ShuffleToggleTwice` | source-code/final-project/MusicMate/app/src/main/java/com/droidcon/musicmate/PlayerScreenViewModel.kt:208-210 | toggling shuffle twice leaves the player as it was |
| `PlayerCommands.PlayPause` | source-code/final-project/VideoMate/app/src/main/java/com/droidcon/videomate/ui/PlayerControlsListener.kt:28-37 | issues exactly the play/pause sequence for the player's state at the click |
| `PlayerCommands.Skip` | source-code/final-project/VideoMate/app/src/main/java/com/droidcon/videomate/ui/PlayerControlsListener.kt:39-51 | issues exactly the skip sequence for the player's state at the click |
| `PlayerCommands.SeekToSeconds` | source-code/final-project/VideoMate/app/src/main/java/com/droidcon/videomate/ui/PlayerControlsListener.kt:53-57 | issues exactly the seek sequence for the duration at the click |
| `PlayerCommands.Nudge` | source-code/final-project/VideoMate/app/src/main/java/com/droidcon/videomate/ui/PlayerControlsListener.kt:59-65 | issues the one forward or back seek, which moves the position by the player's seek increment within 0 and the duration, and changes nothing else |
| `PlayerCommands.VideoClick` | source-code/final-project/VideoMate/app/src/main/java/com/droidcon/videomate/ui/PlayerControlsListener.kt:67-79 | the loop over the items issues exactly the video-click sequence |
| `PlayerCommands.SongClick` | source-code/final-project/MusicMate/app/src/main/java/com/droidcon/musicmate/PlayerScreenViewModel.kt:194-207 | the loop with early exit issues exactly the song-click sequence |
| `PlayerCommands.SpeedChange` | source-code/final-project/VideoMate/app/src/main/java/com/droidcon/videomate/ui/PlayerControlsListener.kt:81-89 | issues the speed-toggle sequence and always saves the resulting speed: the toggled one from 1 or 2, the unchanged one otherwise |
| `PlayerCommands.ToggleShuffle` | source-code/final-project/MusicMate/app/src/main/java/com/droidcon/musicmate/PlayerScreenViewModel.kt:208-210 | issues one shuffle command that flips the current setting |
| `PlayerCommands.CycleRepeatMode` | source-code/final-project/MusicMate/app/src/main/java/com/droidcon/musicmate/PlayerScreenViewModel.kt:211-214 | issues one repeat-mode command with the next mode in the cycle |
| `VideoMateControls.ControlsListener.OnPlayPause` | source-code/final-project/VideoMate/app/src/main/java/com/droidcon/videomate/ui/PlayerControlsListener.kt:28-37 | a bound listener issues the play/pause sequence; an unbound one touches nothing; only the player may change, so the saved speed is kept |
| `VideoMateControls.ControlsListener.OnSkipPrevious` | source-code/final-project/VideoMate/app/src/main/java/com/droidcon/videomate/ui/PlayerControlsListener.kt:39-44 | a bound listener issues the skip to the previous item; an unbound one touches nothing; only the player may change, so the saved speed is kept |
| `VideoMateControls.ControlsListener.OnSkipNext` | source-code/final-project/VideoMate/app/src/main/java/com/droidcon/videomate/ui/PlayerControlsListener.kt:46-51 | a bound listener issues the skip to the next item; an unbound one touches nothing; only the player may change, so the saved speed is kept |
| `VideoMateControls.ControlsListener.OnSeek` | source-code/final-project/VideoMate/app/src/main/java/com/droidcon/videomate/ui/PlayerControlsListener.kt:53-57 | a bound listener issues the seek sequence; an unbound one touches nothing; only the player may change, so the saved speed is kept |
| `VideoMateControls.ControlsListener.OnForward` | source-code/final-project/VideoMate/app/src/main/java/com/droidcon/videomate/ui/PlayerControlsListener.kt:59-61 | a bound listener issues `seekForward`; only the player may change, so the saved speed is kept |
| `VideoMateControls.ControlsListener.OnRewind` | source-code/final-project/VideoMate/app/src/main/java/com/droidcon/videomate/ui/PlayerControlsListener.kt:63-65 | a bound listener issues `seekBack`; only the player may change, so the saved speed is kept |
| `VideoMateControls.ControlsListener.OnVideoClick` | source-code/final-project/VideoMate/app/src/main/java/com/droidcon/videomate/ui/PlayerControlsListener.kt:67-79 | a bound listener issues the video-click sequence for the clicked video's id; only the player may change, so the saved speed is kept |
| `VideoMateControls.ControlsListener.OnSpeedChange` | source-code/final-project/VideoMate/app/src/main/java/com/droidcon/videomate/ui/PlayerControlsListener.kt:81-89 | a bound listener toggles the speed and saves the new speed in the preferences |
| `StarterVideoMateControls.ControlsListener.OnPlayPause` | source-code/starter-project/VideoMate/app/src/main/java/com/droidcon/videomate/ui/PlayerControlsListener.kt:21-30 | a bound listener issues the play/pause sequence; an unbound one touches nothing |
| `StarterVideoMateControls.ControlsListener.OnSkipPrevious` | source-code/starter-project/VideoMate/app/src/main/java/com/droidcon/videomate/ui/PlayerControlsListener.kt:32-37 | a bound listener issues the skip to the previous item |
| `StarterVideoMateControls.ControlsListener.OnSkipNext` | source-code/starter-project/VideoMate/app/src/main/java/com/droidcon/videomate/ui/PlayerControlsListener.kt:39-44 | a bound listener issues the skip to the next item |
| `StarterVideoMateControls.ControlsListener.OnSeek` | source-code/starter-project/VideoMate/app/src/main/java/com/droidcon/videomate/ui/PlayerControlsListener.kt:46-50 | a bound listener issues the seek sequence |
| `StarterVideoMateControls.ControlsListener.OnForward` | source-code/starter-project/VideoMate/app/src/main/java/com/droidcon/videomate/ui/PlayerControlsListener.kt:52-54 | a bound listener issues `seekForward` |
| `StarterVideoMateControls.ControlsListener.OnRewind` | source-code/starter-project/VideoMate/app/src/main/java/com/droidcon/videomate/ui/PlayerControlsListener.kt:56-58 | a bound listener issues `seekBack` |
| `StarterVideoMateControls.ControlsListener.OnVideoClick` | source-code/starter-project/VideoMate/app/src/main/java/com/droidcon/videomate/ui/PlayerControlsListener.kt:60-72 | a bound listener issues the video-click sequence for the clicked video's id |
| `MusicMateControls.MusicControls.OnPlayPause` | source-code/final-project/MusicMate/app/src/main/java/com/droidcon/musicmate/PlayerScreenViewModel.kt:165-174 | bound controls issue the play/pause sequence; unbound controls touch nothing |
| `MusicMateControls.MusicControls.OnSkipPrevious` | source-code/final-project/MusicMate/app/src/main/java/com/droidcon/musicmate/PlayerScreenViewModel.kt:175-181 | bound controls issue the skip to the previous item |
| `MusicMateControls.MusicControls.OnSkipNext` | source-code/final-project/MusicMate/app/src/main/java/com/droidcon/musicmate/PlayerScreenViewModel.kt:182-188 | bound controls issue the skip to the next item |
| `MusicMateControls.MusicControls.OnSeek` | source-code/final-project/MusicMate/app/src/main/java/com/droidcon/musicmate/PlayerScreenViewModel.kt:189-193 | bound controls issue the seek sequence |
| `MusicMateControls.MusicControls.OnSongClick` | source-code/final-project/MusicMate/app/src/main/java/com/droidcon/musicmate/PlayerScreenViewModel.kt:194-207 | bound controls issue the song-click sequence for the clicked song's id |
| `MusicMateControls.MusicControls.OnShuffle` | source-code/final-project/MusicMate/app/src/main/java/com/droidcon/musicmate/PlayerScreenViewModel.kt:208-210 | bound controls flip shuffle mode |
| `MusicMateControls.MusicControls.OnRepeat` | source-code/final-project/MusicMate/app/src/main/java/com/droidcon/musicmate/PlayerScreenViewModel.kt:211-214 | bound controls move repeat mode to the next in the cycle |
| `VideoMateState.DefaultState` | source-code/final-project/VideoMate/app/src/main/java/com/droidcon/videomate/PlayerScreenState.kt:8-19 | a new VideoMate snapshot is paused and not buffering, at position 0 and speed 1, with no video, an empty playlist, an unbound listener, a 16:9 aspect ratio and no error |
| `StarterVideoMateState.DefaultState` | source-code/starter-project/VideoMate/app/src/main/java/com/droidcon/videomate/PlayerScreenState.kt:6-15 | a new starter VideoMate snapshot is paused, at position 0, with no video, an empty playlist, an unbound listener and no error |
| `MusicMateState.DefaultState` | s5-background-playback/code-challenge-solution/PlayerScreenState.kt:7-23 | a new MusicMate snapshot is paused, at position 0, with no song, an empty playlist, repeat off, shuffle off, unbound controls and no error |
| `StarterMusicMateState.DefaultState` | source-code/starter-project/MusicMate/app/src/main/java/com/droidcon/musicmate/PlayerScreenState.kt:5-17 | a new starter MusicMate snapshot is paused, at position 0, with no song, an empty playlist, unbound controls and no error |
| `MusicMateViewModel.OnPlayerEvent` | source-code/final-project/MusicMate/app/src/main/java/com/droidcon/musicmate/PlayerScreenViewModel.kt:94-151 | each callback changes only its own fields: a transition shows the song with the new media id; playing, loading and repeat/shuffle callbacks copy their value; buffering is shown iff the state is buffering; an error is cleared by any non-idle state and kept by idle; a player error is shown; a discontinuity moves the shown position |
| `MusicMateViewModel.Deliver` | source-code/final-project/MusicMate/app/src/main/java/com/droidcon/musicmate/PlayerScreenViewModel.kt:94-151 | no run of callbacks changes the playlist, and one without a media-item transition keeps the shown song |
| `MusicMateViewModel.OnPlayerEventKeepsCurrentInPlaylist` | source-code/final-project/MusicMate/app/src/main/java/com/droidcon/musicmate/PlayerScreenViewModel.kt:95-99 | after any callback the shown song, when there is one, is in the playlist |
| `MusicMateViewModel.DeliverKeepsCurrentInPlaylist` | source-code/final-project/MusicMate/app/src/main/java/com/droidcon/musicmate/PlayerScreenViewModel.kt:94-151 | after any sequence of callbacks the shown song, when there is one, is in the playlist |
| `MusicMateViewModel.SetInitialPlayerScreenState` | source-code/final-project/MusicMate/app/src/main/java/com/droidcon/musicmate/PlayerScreenViewModel.kt:157-217 | the initial snapshot takes the playing flag, current song, repeat and shuffle from the player, shows the whole song list, binds the controls to this player, and changes nothing else |
| `MusicMateViewModel.PollStep` | source-code/final-project/MusicMate/app/src/main/java/com/droidcon/musicmate/PlayerScreenViewModel.kt:223-228 | a progress sample copies the current and buffered positions and changes nothing else |
| `MusicMateViewModel.LoadSongs` | source-code/final-project/MusicMate/app/src/main/java/com/droidcon/musicmate/PlayerScreenViewModel.kt:62-90 | one media item per song, in order, each built from the song's id and source |
| `MusicMateViewModel.SetupCommands` | source-code/final-project/MusicMate/app/src/main/java/com/droidcon/musicmate/PlayerScreenViewModel.kt:59-94 | setup issues exactly: the load of the songs iff the player has no items, then `prepare` iff it is idle, then the listener registration |
| `MusicMateViewModel.IssueSetupCommands` | source-code/final-project/MusicMate/app/src/main/java/com/droidcon/musicmate/PlayerScreenViewModel.kt:59-94 | issues exactly the setup sequence for the player's state at setup |
| `MusicMateViewModel.SetupPlaylist` | source-code/final-project/MusicMate/app/src/main/java/com/droidcon/musicmate/PlayerScreenViewModel.kt:62-94 | after setup the player is not idle; an empty player holds the song list's media ids from the first song, and a loaded one is only prepared |
| `MusicMateViewModel.SetupPreparesLoaded` | source-code/final-project/MusicMate/app/src/main/java/com/droidcon/musicmate/PlayerScreenViewModel.kt:62-94 | the whole setup prepares the player that the load left |
| `MusicMateViewModel.FreshSetupShowsFirstSong` | source-code/final-project/MusicMate/app/src/main/java/com/droidcon/musicmate/PlayerScreenViewModel.kt:59-164 | setting up an empty player with shuffle off and a non-empty song list shows the first song |
| `MusicMateViewModel.PlayerScreenViewModel.constructor` | source-code/final-project/MusicMate/app/src/main/java/com/droidcon/musicmate/PlayerScreenViewModel.kt:31-44 | a new view model shows the default snapshot and is not set up |
| `MusicMateViewModel.PlayerScreenViewModel.UpdatePlayerScreenState` | source-code/final-project/MusicMate/app/src/main/java/com/droidcon/musicmate/PlayerScreenViewModel.kt:46-48 | the snapshot is replaced by the update applied to it |
| `MusicMateViewModel.PlayerScreenViewModel.SetupPlayer` | source-code/final-project/MusicMate/app/src/main/java/com/droidcon/musicmate/PlayerScreenViewModel.kt:59-155 | with no controller nothing changes; otherwise the setup sequence is issued and the snapshot becomes the initial state of the resulting player plus one progress sample, keeping the playlist invariant |
| `MusicMateViewModel.PlayerScreenViewModel.HandleEvent` | source-code/final-project/MusicMate/app/src/main/java/com/droidcon/musicmate/PlayerScreenViewModel.kt:94-151 | a callback replaces the snapshot by the reducer's result and keeps the playlist invariant |
| `MusicMateViewModel.PlayerScreenViewModel.PollProgress` | source-code/final-project/MusicMate/app/src/main/java/com/droidcon/musicmate/PlayerScreenViewModel.kt:219-232 | one progress step replaces the snapshot by a sample of the player and keeps the playlist invariant |
| `VideoMateViewModel.OnPlayerEvent` | s7-building-video-player-pt-2/code-challenge-1-solution/PlayerScreenViewModel.kt:67-116 | each callback changes only its own fields: a transition shows the video with the new media id; a speed change shows the speed truncated to an int; buffering is shown iff the state is buffering; an error is cleared by any non-idle state and kept by idle; only a seek discontinuity moves the shown position, and any other discontinuity changes nothing |
| `VideoMateViewModel.OnPlayerEventKeepsCurrentInPlaylist` | s7-building-video-player-pt-2/code-challenge-1-solution/PlayerScreenViewModel.kt:68-72 | after any callback the shown video, when there is one, is in the playlist |
| `VideoMateViewModel.SpeedChangeShown` | s7-building-video-player-pt-2/code-challenge-1-solution/PlayerScreenViewModel.kt:74-78 | after a speed toggle from 1 or 2, the callback shows the other of 1 and 2 |
| `VideoMateViewModel.SetInitialPlayerScreenState` | s7-building-video-player-pt-2/code-challenge-1-solution/PlayerScreenViewModel.kt:142-153 | the initial snapshot takes the playing flag, speed, current video and buffered position from the player, shows the whole catalogue, binds the listener to this player and these preferences, and changes nothing else |
| `VideoMateViewModel.PollStep` | s7-building-video-player-pt-2/code-challenge-1-solution/PlayerScreenViewModel.kt:159-164 | a progress sample copies the current and buffered positions and changes nothing else |
| `VideoMateViewModel.LoadVideos` | s7-building-video-player-pt-2/code-challenge-1-solution/PlayerScreenViewModel.kt:119-140 | one media item per video, in order, each built from the video's id and source |
| `VideoMateViewModel.LoadedVideos` | s7-building-video-player-pt-2/code-challenge-1-solution/PlayerScreenViewModel.kt:119-140 | the loaded catalogue has distinct media ids "1" to "8", and exactly items 3, 5 and 6 are raw resources |
| `VideoMateViewModel.CatalogueClick` | source-code/final-project/VideoMate/app/src/main/java/com/droidcon/videomate/ui/PlayerControlsListener.kt:67-79 | once the catalogue is loaded, a video click issues the same commands as a click that stops at the first match |
| `VideoMateViewModel.SetupCommands` | s7-building-video-player-pt-2/code-challenge-1-solution/PlayerScreenViewModel.kt:55-67 | setup loads the videos iff the player has no items, sets only the saved speed (1 when none was saved), prepares iff idle, and registers the listener last |
| `VideoMateViewModel.LoadAndSpeed` | s7-building-video-player-pt-2/code-challenge-1-solution/PlayerScreenViewModel.kt:57-61 | the load comes first iff the player has no items, and the saved speed (1 when none was saved) is set last |
| `VideoMateViewModel.LoadAndSpeedRecord` | s7-building-video-player-pt-2/code-challenge-1-solution/PlayerScreenViewModel.kt:57-61 | after loading and restoring the speed, the player holds the catalogue's media ids (when it was empty) and the saved speed |
| `VideoMateViewModel.SetupPlayerRecord` | s7-building-video-player-pt-2/code-challenge-1-solution/PlayerScreenViewModel.kt:55-67 | the whole setup leaves the player where loading and restoring the speed left it, prepared, and so no longer idle |
| `VideoMateViewModel.SetupPlayerFinal` | s7-building-video-player-pt-2/code-challenge-1-solution/PlayerScreenViewModel.kt:55-67 | the snapshot read before preparing equals the one of the prepared player, and the prepared player is the one the whole setup sequence leaves |
| `VideoMateViewModel.InitialStateIgnoresPlaybackState` | s7-building-video-player-pt-2/code-challenge-1-solution/PlayerScreenViewModel.kt:62-63 | preparing the player does not change the initial snapshot and progress sample read from it |
| `VideoMateViewModel.FreshSetupShowsFirstVideo` | s7-building-video-player-pt-2/code-challenge-1-solution/PlayerScreenViewModel.kt:55-62 | setting up an empty player with shuffle off shows the first video and the restored speed |
| `VideoMateViewModel.IssueLoadAndSpeed` | s7-building-video-player-pt-2/code-challenge-1-solution/PlayerScreenViewModel.kt:57-61 | loads the videos when the player is empty and applies the saved speed |
| `VideoMateViewModel.PlayerScreenViewModel.constructor` | s7-building-video-player-pt-2/code-challenge-1-solution/PlayerScreenViewModel.kt:28-44 | a new view model holds the catalogue and the preferences, shows the default snapshot, and is not set up |
| `VideoMateViewModel.PlayerScreenViewModel.UpdatePlayerScreenState` | s7-building-video-player-pt-2/code-challenge-1-solution/PlayerScreenViewModel.kt:171-173 | the snapshot is replaced by the block applied to it |
| `VideoMateViewModel.PlayerScreenViewModel.SetupPlayer` | s7-building-video-player-pt-2/code-challenge-1-solution/PlayerScreenViewModel.kt:55-117 | with no controller nothing changes; otherwise the setup sequence is issued and the snapshot becomes the initial state of the resulting player plus one progress sample, keeping the playlist invariant |
| `VideoMateViewModel.PlayerScreenViewModel.SetInitialPlayerScreenStateAndPoll` | s7-building-video-player-pt-2/code-challenge-1-solution/PlayerScreenViewModel.kt:62-63 | the snapshot becomes the initial state for the given player state, followed by one progress sample |
| `VideoMateViewModel.PlayerScreenViewModel.HandleEvent` | s7-building-video-player-pt-2/code-challenge-1-solution/PlayerScreenViewModel.kt:67-116 | a callback replaces the snapshot by the reducer's result and keeps the playlist invariant |
| `VideoMateViewModel.PlayerScreenViewModel.PollProgress` | s7-building-video-player-pt-2/code-challenge-1-solution/PlayerScreenViewModel.kt:155-168 | one progress step replaces the snapshot by a sample of the player and keeps the playlist invariant |
| `StarterMusicMateViewModel.WithPlaylist` | source-code/starter-project/MusicMate/app/src/main/java/com/droidcon/musicmate/PlayerScreenViewModel.kt:18-22 | the snapshot shows the song list and every other field is kept |
| `StarterMusicMateViewModel.WithPlaylistIdempotent` | source-code/starter-project/MusicMate/app/src/main/java/com/droidcon/musicmate/PlayerScreenViewModel.kt:18-22 | showing the song list twice is the same as showing it once |
| `StarterMusicMateViewModel.PlayerScreenViewModel.constructor` | source-code/starter-project/MusicMate/app/src/main/java/com/droidcon/musicmate/PlayerScreenViewModel.kt:9-12 | a new starter view model shows the default snapshot |
| `StarterMusicMateViewModel.PlayerScreenViewModel.UpdatePlayerScreenState` | source-code/starter-project/MusicMate/app/src/main/java/com/droidcon/musicmate/PlayerScreenViewModel.kt:14-16 | the snapshot is replaced by the update applied to it |
| `StarterMusicMateViewModel.PlayerScreenViewModel.OnStart` | source-code/starter-project/MusicMate/app/src/main/java/com/droidcon/musicmate/PlayerScreenViewModel.kt:18-22 | starting shows the song list and keeps the other fields |
| `StarterMusicMateViewModel.PlayerScreenViewModel.OnStop` | source-code/starter-project/MusicMate/app/src/main/java/com/droidcon/musicmate/PlayerScreenViewModel.kt:24-26 | stopping changes nothing |

## Left out

- Floating point: playback speed, seek seconds and the aspect ratio are exact reals. `Float` rounding, NaN and infinities are not modelled. `Float.toInt`/`toLong` truncate toward zero and saturate at the integer range.
- `toFormattedDuration` on a `Double` is not modelled; the apps call it on `Int`, `Long` and `Float` values, and a `Float` goes through `DurationFormat.FloatToFormattedDuration`.
- The `MediaController` future: `SessionToken`, `buildAsync`, `releaseFuture`, and the `onStart`/`onStop` of the final view models are left out. `SetupPlayer` receives the nullable controller that the `mediaController` getter would return.
- Media3 itself is external. `MediaPlayer.Effect` keeps only the effects the player masks before returning. Playback-state, playing, loading, error and discontinuity changes are modelled as callbacks delivered to the reducers; the model does not constrain when the player sends them.
- The progress job's endless loop, its `delay` calls and its cancellation are not modelled. `PollProgress` is one iteration, and `SetupPlayer` includes the first iteration, which runs synchronously on `Dispatchers.Main.immediate`.
- URI building (`Uri.Builder`, `getIdentifier`, `toUri`) and `MediaMetadata` are reduced to the choice between a web URI and a raw resource named by the source.
- The song catalogue `SongList.kt` is not part of this model; the MusicMate view models take the song list as a parameter.
- `SharedPreferences` is reduced to the one saved speed; key names and the editor are left out.
- Listener identity: registering the listener is the `AddListener` command. Callbacks reach the view model through `HandleEvent`.
- Compose UI (screens, playlists, controls, auto-hide, theme), `MainActivity` and `PlaybackService` are not part of this model, nor is the aspect-ratio update from the video surface.
- `KotlinInt.FormatZeroPadded`: the digits are those of a locale whose zero digit is '0'. `String.format` uses the default locale, and locales with other digits are not modelled.
- `DurationFormat.DurationFields`: the round trip holds for the '0'-based digits above, not for locales with other digits.
- `MediaPlayer.Effect`: with shuffle enabled, next and previous follow a random shuffle order, so the model leaves the record unchanged for those skips instead of moving it.
- `MediaPlayer.Effect`: `setMediaItems` starts at index 0 even with shuffle enabled, where Media3 starts at the first item of the shuffle order; the first-item lemmas assume shuffle off, as on a new player.
- `MediaPlayer.Effect`: the playback state that Media3 masks on a seek or on `setMediaItems` (for example ENDED on an empty list) is not modelled; only `prepare` changes it.
- `MediaPlayer.Effect`: after moving to another item the duration and buffered position stay until callbacks and sampling update them, and the target item's default position is taken as 0.
- `MediaPlayer.Effect`: positions are unbounded, so an increment that overflows a Long is not modelled.
- `MediaPlayer.Effect`: `play` on a READY player makes it playing at once; playback suppression (such as a transient loss of audio focus), which keeps a READY player from playing, is not modelled.
- Positions and durations are unbounded integers. Long overflow is written out only where the apps convert units (`SecondsToMillis`).
- The starter MusicMate snapshot reuses the MusicMate controls datatype; the starter never binds it.
