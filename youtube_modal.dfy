/** The modal that opens a video: streaming links go to the custom player, anything else
    to a plain frame that embeds a native `<video>` element only for direct media files. */
module YouTubeModal {
  import opened JsText
  import opened Catalog
  import opened YouTubeVideo

  /** `/youtube|youtu\.be|vimeo/i`. */
  predicate IsStreaming(url: string) {
    var l := Lower(url);
    Includes(l, "youtube") || Includes(l, "youtu.be") || Includes(l, "vimeo")
  }

  /** `/\.(mp4|webm|ogg)$/i`: without the multiline flag `$` is the end of the string. */
  predicate IsDirectFile(url: string) {
    var l := Lower(url);
    EndsWith(l, ".mp4") || EndsWith(l, ".webm") || EndsWith(l, ".ogg")
  }

  datatype ModalView = Nothing | CustomPlayer(video: Video) | PlainFrame(video: Video, nativeVideo: bool)

  /** What the modal renders for an optional video. */
  function ModalFor(video: Option<Video>): (r: ModalView)
    ensures video.None? <==> r.Nothing?
    ensures r.CustomPlayer? ==> video == Some(r.video) && IsStreaming(r.video.videoUrl)
    ensures r.PlainFrame? ==> video == Some(r.video) && !IsStreaming(r.video.videoUrl)
    ensures r.PlainFrame? ==> (r.nativeVideo <==> IsDirectFile(r.video.videoUrl))
  {
    match video
    case None => Nothing
    case Some(v) =>
      if IsStreaming(v.videoUrl) then CustomPlayer(v)
      else PlainFrame(v, IsDirectFile(v.videoUrl))
  }

  /** Streaming wins: a media file served from a streaming host opens in the custom player. */
  lemma StreamingTakesPrecedence(v: Video)
    requires IsStreaming(v.videoUrl) && IsDirectFile(v.videoUrl)
    ensures ModalFor(Some(v)) == CustomPlayer(v)
  {
  }

  /** Lower-casing a link does not change how it is classified. */
  lemma ClassificationIgnoresCase(url: string)
    ensures IsStreaming(Lower(url)) == IsStreaming(url)
    ensures IsDirectFile(Lower(url)) == IsDirectFile(url)
  {
    assert Lower(Lower(url)) == Lower(url);
  }

  /** A text with no upper-case letter, found in a link, is still found after
      lower-casing, and so is each of its prefixes. */
  lemma LowerKeepsOccurrence(s: string, d: string, k: nat, p: string)
    requires Includes(s, d) && k <= |d| && p == d[..k]
    requires forall i :: 0 <= i < |d| ==> !('A' <= d[i] <= 'Z')
    ensures Includes(Lower(s), p)
  {
    var j := IndexOf(s, d).value;
    assert Lower(s)[j..j + k] == d[..k] by {
      forall i | 0 <= i < k ensures Lower(s)[j + i] == d[i] {
        assert s[j..j + |d|][i] == s[j + i];
      }
    }
    assert OccursAt(Lower(s), d[..k], j);
  }

  /** A link naming a YouTube or Vimeo host is a streaming link. */
  lemma HostsStream(url: string)
    requires IsYouTubeUrl(url) || Includes(url, "vimeo.com")
    ensures IsStreaming(url)
  {
    if Includes(url, "youtube.com") {
      LowerKeepsOccurrence(url, "youtube.com", 7, "youtube");
    } else if Includes(url, "youtu.be") {
      LowerKeepsOccurrence(url, "youtu.be", 8, "youtu.be");
    } else {
      LowerKeepsOccurrence(url, "vimeo.com", 5, "vimeo");
    }
  }

  /** Every link the card resolves to YouTube or Vimeo opens in the custom player. */
  lemma CardPlatformsStream(v: Video)
    requires GetPlatformInfo(v.videoUrl).platform in {"youtube", "vimeo"}
    ensures ModalFor(Some(v)) == CustomPlayer(v)
  {
    HostsStream(v.videoUrl);
  }
}
