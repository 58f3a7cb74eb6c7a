/**
 * The playable items (`Song`, `Video`), the media items built from them for
 * the player, and the find-by-id lookup that maps the player's current
 * media id back to a catalogue entry.
 */
module Media {
  import opened Wrappers
  import opened KotlinInt

  datatype Song = Song(id: int, title: string, artist: string, source: string, thumb: string, durationSeconds: int)

  datatype Video = Video(id: int, title: string, source: string, thumb: string, durationSeconds: int, format: string)

  function SongId(s: Song): int { s.id }

  function VideoId(v: Video): int { v.id }

  /** An error reported by the player (`PlaybackException`), kept opaque. */
  datatype PlaybackError = PlaybackError(errorCode: int, message: string)

  /** Where a media item is played from: a web URL, or a raw resource packaged with the app. */
  datatype MediaUri = WebUri(url: string) | RawResource(name: string)

  /** A `MediaItem` as the player sees it: its media id (the item's id as text) and its URI. */
  datatype MediaItem = MediaItem(mediaId: string, uri: MediaUri)

  /** `source.startsWith("http")` */
  predicate IsWebSource(source: string)
  {
    |source| >= 4 && source[0] == 'h' && source[1] == 't' && source[2] == 't' && source[3] == 'p'
  }

  /** The media item built for a catalogue entry: web sources are played by URL, others as raw resources. */
  function ToMediaItem(id: int, source: string): (item: MediaItem)
    ensures item.mediaId == IntToString(id)
    ensures item.uri.WebUri? <==> IsWebSource(source)
    ensures item.uri == WebUri(source) || item.uri == RawResource(source)
  {
    MediaItem(IntToString(id), if IsWebSource(source) then WebUri(source) else RawResource(source))
  }

  /** True when `item`'s id, as text, is the media id (a missing media id matches nothing). */
  predicate MatchesMediaId<T>(idOf: T -> int, item: T, mediaId: Option<string>)
  {
    mediaId == Some(IntToString(idOf(item)))
  }

  /** `items.find { it.id.toString() == mediaId }`: the first entry whose id text is the media id. */
  function FindById<T>(items: seq<T>, idOf: T -> int, mediaId: Option<string>): (r: Option<T>)
    ensures r.Some? ==> r.value in items && MatchesMediaId(idOf, r.value, mediaId)
    ensures r.None? <==> forall i | 0 <= i < |items| :: !MatchesMediaId(idOf, items[i], mediaId)
    ensures forall k | 0 <= k < |items| && MatchesMediaId(idOf, items[k], mediaId) ::
      (forall j | 0 <= j < k :: !MatchesMediaId(idOf, items[j], mediaId)) ==> r == Some(items[k])
  {
    if items == [] then None
    else if MatchesMediaId(idOf, items[0], mediaId) then Some(items[0])
    else
      var rest := items[1..];
      var r := FindById(rest, idOf, mediaId);
      assert
        && (r.Some? ==> r.value in items && MatchesMediaId(idOf, r.value, mediaId))
        && (r.None? <==> forall i | 0 <= i < |items| :: !MatchesMediaId(idOf, items[i], mediaId))
        && (forall k | 0 <= k < |items| && MatchesMediaId(idOf, items[k], mediaId) ::
             (forall j | 0 <= j < k :: !MatchesMediaId(idOf, items[j], mediaId)) ==> r == Some(items[k]))
      by {
        assert forall k | 1 <= k < |items| :: items[k] == rest[k - 1];
        forall k | 1 <= k < |items| && MatchesMediaId(idOf, items[k], mediaId) &&
          (forall j | 0 <= j < k :: !MatchesMediaId(idOf, items[j], mediaId))
          ensures r == Some(items[k])
        {
          assert forall j | 0 <= j < k - 1 :: rest[j] == items[j + 1];
        }
      }
      r
  }

  predicate DistinctIds<T>(items: seq<T>, idOf: T -> int)
  {
    forall i, j | 0 <= i < j < |items| :: idOf(items[i]) != idOf(items[j])
  }

  /** With distinct ids, looking up an entry's own id finds exactly that entry. */
  lemma FindByIdUnique<T>(items: seq<T>, idOf: T -> int, k: int)
    requires DistinctIds(items, idOf)
    requires 0 <= k < |items|
    ensures FindById(items, idOf, Some(IntToString(idOf(items[k])))) == Some(items[k])
  {
    var mediaId := Some(IntToString(idOf(items[k])));
    var r := FindById(items, idOf, mediaId);
    assert MatchesMediaId(idOf, items[k], mediaId);
    var j :| 0 <= j < |items| && items[j] == r.value;
    IntToStringInjective(idOf(items[j]), idOf(items[k]));
    assert j == k;
  }
}
