/** The constant catalogue of eight videos that VideoMate plays. */
module VideoCatalogue {
  import opened Media

  /**
   * The web location of the sample videos and of their thumbnails. The
   * scheme is a literal of its own so that `IsWebSource` sees it at the
   * head of every sample URL.
   */
  const SAMPLES: string := "https://" + "storage.googleapis.com/gtv-videos-bucket/sample/"
  const SAMPLE_IMAGES: string := SAMPLES + "images/"
  /** The common prefix of the raw-resource names of the two clips packaged with the app. */
  const PEXELS: string := "pexels_yaroslav_shuraev_"

  /** `VideoList` */
  function VideoList(): (videos: seq<Video>)
    ensures |videos| == 8
    ensures forall i | 0 <= i < |videos| :: videos[i].id == i + 1
  {
    [
      Video(1, "Big Buck Bunny",
        SAMPLES + "BigBuckBunny.mp4",
        SAMPLE_IMAGES + "BigBuckBunny.jpg",
        596, "mp4"),
      Video(2, "Elephants Dream",
        SAMPLES + "ElephantsDream.mp4",
        SAMPLE_IMAGES + "ElephantsDream.jpg",
        653, "mp4"),
      Video(3, "By Yaroslav Shuraev - 1",
        PEXELS + "4434286_1080x1920_30fps",
        "",
        18, "mp4"),
      Video(4, "For Bigger Blazes",
        SAMPLES + "ForBiggerBlazes.mp4",
        SAMPLE_IMAGES + "ForBiggerBlazes.jpg",
        15, "mp4"),
      Video(5, "By Yaroslav Shuraev - 2",
        PEXELS + "4434150_1080x1920_30fps",
        "",
        9, "mp4"),
      Video(6, "Error test",
        "invalid",
        "",
        0, "error"),
      Video(7, "For Bigger Escapes",
        SAMPLES + "ForBiggerEscapes.mp4",
        SAMPLE_IMAGES + "ForBiggerEscapes.jpg",
        15, "mp4"),
      Video(8, "Sintel",
        SAMPLES + "Sintel.mp4",
        SAMPLE_IMAGES + "Sintel.jpg",
        887, "mp4")
    ]
  }

  /** The catalogue holds eight entries with ids 1 to 8 in order (so distinct), and non-negative durations. */
  lemma VideoListShape()
    ensures |VideoList()| == 8
    ensures forall i | 0 <= i < |VideoList()| :: VideoList()[i].id == i + 1
    ensures DistinctIds(VideoList(), VideoId)
    ensures forall v | v in VideoList() :: v.durationSeconds >= 0
  {
    var videos := VideoList();
    assert videos[0].id == 1 && videos[1].id == 2 && videos[2].id == 3 && videos[3].id == 4;
    assert videos[4].id == 5 && videos[5].id == 6 && videos[6].id == 7 && videos[7].id == 8;
  }

  /** Exactly the videos with ids 3, 5 and 6 are packaged with the app rather than fetched over http. */
  lemma LocalVideos()
    ensures forall v | v in VideoList() :: !IsWebSource(v.source) <==> v.id in {3, 5, 6}
  {
    var videos := VideoList();
    assert IsWebSource(videos[0].source) && IsWebSource(videos[1].source);
    assert !IsWebSource(videos[2].source) && IsWebSource(videos[3].source);
    assert !IsWebSource(videos[4].source) && !IsWebSource(videos[5].source);
    assert IsWebSource(videos[6].source) && IsWebSource(videos[7].source);
    VideoListShape();
  }

  /** The entry kept for exercising the error path: id 6, zero duration, format "error", not a web source. */
  lemma ErrorTestEntry()
    ensures |VideoList()| > 5
    ensures var v := VideoList()[5];
      v.id == 6 && v.durationSeconds == 0 && v.format == "error" && !IsWebSource(v.source)
  {
    assert VideoList()[5].source == "invalid";
  }
}
