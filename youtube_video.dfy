/** The video card's URL resolver: which platform a link belongs to, which video id it
    carries, and which thumbnail the card shows. The same split-based id rules are used by
    the admin form and by the player, so they are defined here once. */
module YouTubeVideo {
  import opened JsText
  import opened Catalog

  datatype PlatformInfo = PlatformInfo(platform: string, id: string)

  /** The id rules for a YouTube link, first match wins: after `v=` up to `&`, else after
      `youtu.be/` up to `?`, else after `embed/` up to `?`, else empty. */
  function YouTubeIdRule(url: string): string {
    if Includes(url, "v=") then SplitPick(url, "v=", "&")
    else if Includes(url, "youtu.be/") then SplitPick(url, "youtu.be/", "?")
    else if Includes(url, "embed/") then SplitPick(url, "embed/", "?")
    else ""
  }

  predicate IsYouTubeUrl(url: string) {
    Includes(url, "youtube.com") || Includes(url, "youtu.be")
  }

  /** The platform and id of a video link. Resolution is total: it never fails. */
  function GetPlatformInfo(url: string): (r: PlatformInfo)
    ensures r.platform in {"youtube", "vimeo", "other"}
    ensures url == "" ==> r == PlatformInfo("other", "")
    ensures r.platform == "youtube" <==> IsYouTubeUrl(url)
    ensures r.platform == "vimeo" <==> !IsYouTubeUrl(url) && Includes(url, "vimeo.com")
    ensures r.platform == "youtube" ==> r.id == YouTubeIdRule(url)
    ensures r.platform == "vimeo" ==> r.id == SplitPick(url, "vimeo.com/", "?")
    ensures r.platform == "other" ==> r.id == ""
  {
    if url == "" then PlatformInfo("other", "")
    else if IsYouTubeUrl(url) then PlatformInfo("youtube", YouTubeIdRule(url))
    else if Includes(url, "vimeo.com") then PlatformInfo("vimeo", SplitPick(url, "vimeo.com/", "?"))
    else PlatformInfo("other", "")
  }

  /** A watch link `...youtube.com...v=ID` followed by nothing or by more `&` parameters
      resolves to YouTube with exactly `ID`. */
  lemma WatchUrlId(host: string, id: string, query: string)
    requires Includes(host, "youtube.com") && '=' !in host
    requires '=' !in id && '&' !in id
    requires query == "" || query[0] == '&'
    ensures GetPlatformInfo(host + "v=" + id + query) == PlatformInfo("youtube", id)
  {
    var url := host + "v=" + id + query;
    assert url == host + ("v=" + id + query);
    IncludesExtended(host, "v=" + id + query, "youtube.com");
    assert url[|host|..|host| + 2] == "v=";
    assert OccursAt(url, "v=", |host|);
    AbsentCharExcludes(host + "v", "v=", 1);
    AbsentCharExcludes(id, "v=", 1);
    SplitPickBuilt(host, "v=", id, '&', query);
  }

  /** A short link `youtu.be/ID`, optionally followed by a `?` query, resolves to YouTube
      with exactly `ID` when the link has no `v=` anywhere. */
  lemma ShortUrlId(host: string, id: string, query: string)
    requires !Includes(host + "youtu.be", "youtu.be/")
    requires !Includes(host + "youtu.be/" + id + query, "v=")
    requires '/' !in id && '?' !in id
    requires query == "" || query[0] == '?'
    ensures GetPlatformInfo(host + "youtu.be/" + id + query) == PlatformInfo("youtube", id)
  {
    var url := host + "youtu.be/" + id + query;
    assert url[|host|..|host| + 9] == "youtu.be/";
    assert url[|host|..|host| + 8] == "youtu.be";
    assert OccursAt(url, "youtu.be/", |host|) && OccursAt(url, "youtu.be", |host|);
    assert "youtu.be/"[..8] == "youtu.be";
    AbsentCharExcludes(id, "youtu.be/", 8);
    SplitPickBuilt(host, "youtu.be/", id, '?', query);
  }

  /** A Vimeo link `...vimeo.com/ID`, optionally followed by a `?` query, resolves to Vimeo
      with exactly `ID` when nothing in it names a YouTube host. */
  lemma VimeoUrlId(host: string, id: string, query: string)
    requires !Includes(host + "vimeo.com", "vimeo.com/")
    requires !IsYouTubeUrl(host + "vimeo.com/" + id + query)
    requires '/' !in id && '?' !in id
    requires query == "" || query[0] == '?'
    ensures GetPlatformInfo(host + "vimeo.com/" + id + query) == PlatformInfo("vimeo", id)
  {
    var url := host + "vimeo.com/" + id + query;
    assert url[|host|..|host| + 9] == "vimeo.com";
    assert OccursAt(url, "vimeo.com", |host|);
    assert "vimeo.com/"[..9] == "vimeo.com";
    AbsentCharExcludes(id, "vimeo.com/", 9);
    SplitPickBuilt(host, "vimeo.com/", id, '?', query);
  }

  /** The platform and id a card plays: the stored pair only when both are non-empty,
      otherwise both are resolved from `videoUrl`. */
  function ResolvedInfo(v: Video): (r: PlatformInfo)
    ensures v.platform != "" && v.youtubeId != "" ==> r == PlatformInfo(v.platform, v.youtubeId)
    ensures v.platform == "" || v.youtubeId == "" ==> r == GetPlatformInfo(v.videoUrl)
  {
    if v.platform != "" && v.youtubeId != "" then PlatformInfo(v.platform, v.youtubeId)
    else GetPlatformInfo(v.videoUrl)
  }

  const FallbackImage := "https://placehold.co/480x360/1E1E2A/00e0ff?text=Video+Unavailable"

  /** The YouTube thumbnail service's medium-quality image for a video id. */
  function CdnThumbnail(id: string): string {
    "https://img.youtube.com/vi/" + id + "/mqdefault.jpg"
  }

  /** The thumbnail URL names its video: different ids give different URLs. */
  lemma CdnThumbnailInjective(a: string, b: string)
    requires CdnThumbnail(a) == CdnThumbnail(b)
    ensures a == b
  {
    var u := CdnThumbnail(a);
    assert u[27..|u| - 14] == a;
    assert CdnThumbnail(b)[27..|CdnThumbnail(b)| - 14] == b;
  }

  /** No video's thumbnail URL is the placeholder image. */
  lemma CdnThumbnailIsNotFallback(id: string)
    ensures CdnThumbnail(id) != FallbackImage
  {
    assert FallbackImage == "https://placehold.co/480x360/1E1E2A/00e0ff" + "?text=Video+Unavailable";
    assert FallbackImage[8] != CdnThumbnail(id)[8];
  }

  /** The thumbnail generated for a platform and id: the YouTube image when the platform is
      YouTube and the id is known, and the placeholder otherwise (Vimeo included). */
  function GeneratedThumbnail(info: PlatformInfo): (r: string)
    ensures r == FallbackImage || r == CdnThumbnail(info.id)
  {
    if info.platform == "youtube" && info.id != "" then CdnThumbnail(info.id) else FallbackImage
  }

  /** The generated thumbnail is a YouTube image exactly for a YouTube video with an id,
      and then it is the image of that very id. */
  lemma GeneratedThumbnailIsCdn(info: PlatformInfo, id: string)
    ensures GeneratedThumbnail(info) == CdnThumbnail(id) <==> info.platform == "youtube" && info.id == id && id != ""
  {
    if GeneratedThumbnail(info) == CdnThumbnail(id) {
      if info.platform == "youtube" && info.id != "" {
        CdnThumbnailInjective(info.id, id);
      } else {
        CdnThumbnailIsNotFallback(id);
      }
    }
  }

  /** The image the card shows: the placeholder after a load error (even over a custom
      thumbnail), else the custom thumbnail, else the generated one. */
  function ThumbnailUrl(v: Video, thumbnailError: bool): (r: string)
    ensures thumbnailError ==> r == FallbackImage
    ensures !thumbnailError && v.thumbnail != "" ==> r == v.thumbnail
    ensures !thumbnailError && v.thumbnail == "" ==> r == GeneratedThumbnail(ResolvedInfo(v))
  {
    if thumbnailError then FallbackImage
    else if v.thumbnail != "" then v.thumbnail
    else GeneratedThumbnail(ResolvedInfo(v))
  }

  /** Without a custom thumbnail or a load error, a card whose link is a YouTube watch link
      shows that video's YouTube image. */
  lemma WatchLinkCardShowsItsImage(v: Video, host: string, id: string, query: string)
    requires v.thumbnail == "" && (v.platform == "" || v.youtubeId == "")
    requires v.videoUrl == host + "v=" + id + query
    requires Includes(host, "youtube.com") && '=' !in host
    requires '=' !in id && '&' !in id && id != ""
    requires query == "" || query[0] == '&'
    ensures ThumbnailUrl(v, false) == CdnThumbnail(id)
  {
    WatchUrlId(host, id, query);
  }
}
