/** The full-screen player's choice of which YouTube video to embed. */
module FixedCelFlicksVideoPlayer {
  import opened JsText
  import opened Catalog
  import opened YouTubeVideo
  import YoutubeStore

  /** `getYouTubeId`: the card's id rules with no check of the host. */
  function GetYouTubeId(url: string): (r: string)
    ensures url == "" ==> r == ""
    ensures !Includes(url, "v=") && !Includes(url, "youtu.be/") && !Includes(url, "embed/") ==> r == ""
  {
    if url == "" then "" else YouTubeIdRule(url)
  }

  /** On every link the card treats as YouTube, the player reads the same id as the card. */
  lemma AgreesWithCard(url: string)
    requires IsYouTubeUrl(url)
    ensures GetYouTubeId(url) == GetPlatformInfo(url).id
  {
  }

  /** With no host check, any link carrying `v=ID` plays `ID`, even one the card does not
      recognise as YouTube (and for which the card has no id). */
  lemma ForeignHostWatchLink(host: string, id: string, query: string)
    requires '=' !in host && '=' !in id && '&' !in id
    requires query == "" || query[0] == '&'
    requires !IsYouTubeUrl(host + "v=" + id + query) && !Includes(host + "v=" + id + query, "vimeo.com")
    ensures GetYouTubeId(host + "v=" + id + query) == id
    ensures GetPlatformInfo(host + "v=" + id + query) == PlatformInfo("other", "")
  {
    var url := host + "v=" + id + query;
    assert url[|host|..|host| + 2] == "v=";
    assert OccursAt(url, "v=", |host|);
    AbsentCharExcludes(host + "v", "v=", 1);
    AbsentCharExcludes(id, "v=", 1);
    SplitPickBuilt(host, "v=", id, '&', query);
  }

  /** `videoId`: the first non-empty of the stored id (either spelling) and the id read
      from the link (either spelling). */
  function PlayerVideoId(v: Video): (r: string)
    ensures v.youtubeId != "" ==> r == v.youtubeId
    ensures v.youtubeId == "" && v.youtube_id != "" ==> r == v.youtube_id
    ensures v.youtubeId == "" && v.youtube_id == "" ==>
      r == GetYouTubeId(if v.videoUrl != "" then v.videoUrl else v.video_url)
  {
    if v.youtubeId != "" then v.youtubeId
    else if v.youtube_id != "" then v.youtube_id
    else GetYouTubeId(if v.videoUrl != "" then v.videoUrl else v.video_url)
  }

  /** A video just added to the catalog carries only the column spellings, and the player
      still finds its id: the stored `youtube_id`, else the one in `video_url`. */
  lemma PlaysFreshlyAddedVideo(row: VideoRow)
    ensures PlayerVideoId(YoutubeStore.Inserted(row)) ==
      (if row.youtube_id != "" then row.youtube_id else GetYouTubeId(row.video_url))
  {
  }

  /** The card of that same freshly added video, with no custom thumbnail, shows the
      placeholder: the card reads only `videoUrl`, which the added record lacks. */
  lemma FreshlyAddedCardShowsPlaceholder(row: VideoRow)
    requires row.thumbnail == ""
    ensures ThumbnailUrl(YoutubeStore.Inserted(row), false) == FallbackImage
  {
  }
}
