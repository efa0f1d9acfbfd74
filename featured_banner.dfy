/** The home page's banner: a wrap-around carousel over the movie catalog that plays the
    current movie's preview clip (muted until the viewer unmutes it) or shows its still. */
module FeaturedBanner {
  /** A movie as the banner shows it; `preview` is `""` when the movie has no clip. */
  datatype Movie = Movie(id: string, title: string, description: string, thumbnail: string, preview: string, tags: seq<string>)

  /** The background: the preview clip when there is one, the thumbnail otherwise. */
  datatype Backdrop = PreviewClip(src: string) | Still(src: string)

  /** `prev === 0 ? length - 1 : prev - 1`. */
  function PrevIndex(i: int, count: nat): int {
    if i == 0 then count - 1 else i - 1
  }

  /** `prev === length - 1 ? 0 : prev + 1`. */
  function NextIndex(i: int, count: nat): int {
    if i == count - 1 then 0 else i + 1
  }

  /** On a non-empty list both arrows keep the index in range and wrap around at the ends. */
  lemma ArrowsWrap(i: int, count: nat)
    requires 0 <= i < count
    ensures 0 <= PrevIndex(i, count) < count && 0 <= NextIndex(i, count) < count
    ensures PrevIndex(i, count) == (i - 1) % count
    ensures NextIndex(i, count) == (i + 1) % count
  {
  }

  /** Each arrow undoes the other. */
  lemma ArrowsUndoEachOther(i: int, count: nat)
    requires 0 <= i < count
    ensures NextIndex(PrevIndex(i, count), count) == i
    ensures PrevIndex(NextIndex(i, count), count) == i
  {
  }

  /** The index after pressing next `k` times. */
  function NextTimes(i: int, k: nat, count: nat): int {
    if k == 0 then i else NextIndex(NextTimes(i, k - 1, count), count)
  }

  /** Pressing next `k` times moves `k` movies along while the end is not passed. */
  lemma {:induction false} NextTimesWithin(i: int, k: nat, count: nat)
    requires 0 <= i && i + k < count
    ensures NextTimes(i, k, count) == i + k
  {
    if k > 0 {
      NextTimesWithin(i, k - 1, count);
    }
  }

  /** Pressing next `a` times and then `b` times is pressing it `a + b` times. */
  lemma {:induction false} NextTimesCompose(i: int, a: nat, b: nat, count: nat)
    ensures NextTimes(NextTimes(i, a, count), b, count) == NextTimes(i, a + b, count)
  {
    if b > 0 {
      NextTimesCompose(i, a, b - 1, count);
    }
  }

  /** Pressing next once per movie visits every movie and comes back to the start. */
  lemma FullCircle(i: int, count: nat)
    requires 0 <= i < count
    ensures NextTimes(i, count, count) == i
  {
    NextTimesWithin(i, count - 1 - i, count);
    assert NextTimes(i, count - i, count) == 0;
    NextTimesWithin(0, i, count);
    NextTimesCompose(i, count - i, i, count);
  }

  class Banner {
    const featured: seq<Movie>
    var currentIndex: int
    var isMuted: bool
    /** The clip element's own `muted` and `volume`, which the mute button writes. */
    var clipMuted: bool
    var clipVolume: real

    /** The index points at a movie of the (non-empty) list. */
    ghost predicate Valid()
      reads this
    {
      |featured| > 0 ==> 0 <= currentIndex < |featured|
    }

    /** The banner starts on the first movie with its clip muted. */
    constructor(featured: seq<Movie>)
      ensures Valid() && this.featured == featured && currentIndex == 0
      ensures isMuted && clipMuted && clipVolume == 1.0
    {
      this.featured := featured;
      currentIndex := 0;
      isMuted := true;
      clipMuted := true;
      clipVolume := 1.0;
    }

    /** An empty list renders nothing. */
    function Renders(): (r: bool)
      reads this
      ensures r <==> |featured| > 0
    {
      |featured| != 0
    }

    function CurrentMovie(): Movie
      requires Valid() && |featured| > 0
      reads this
    {
      featured[currentIndex]
    }

    /** The background shown for the current movie. */
    function Background(): (r: Backdrop)
      requires Valid() && |featured| > 0
      reads this
      ensures r.PreviewClip? <==> featured[currentIndex].preview != ""
      ensures r.src == if featured[currentIndex].preview != "" then featured[currentIndex].preview else featured[currentIndex].thumbnail
    {
      var m := CurrentMovie();
      if m.preview != "" then PreviewClip(m.preview) else Still(m.thumbnail)
    }

    /** The mute button is shown only over a clip. */
    function ShowsMuteButton(): (r: bool)
      requires Valid() && |featured| > 0
      reads this
      ensures r <==> Background().PreviewClip?
    {
      CurrentMovie().preview != ""
    }

    /** The id handed to the page's play handler. */
    function PlayId(): (r: string)
      requires Valid() && |featured| > 0
      reads this
      ensures r == featured[currentIndex].id
    {
      CurrentMovie().id
    }

    method HandlePrev()
      requires Valid() && |featured| > 0
      modifies this
      ensures Valid() && currentIndex == PrevIndex(old(currentIndex), |featured|)
      ensures isMuted == old(isMuted) && clipMuted == old(clipMuted) && clipVolume == old(clipVolume)
    {
      currentIndex := if currentIndex == 0 then |featured| - 1 else currentIndex - 1;
    }

    method HandleNext()
      requires Valid() && |featured| > 0
      modifies this
      ensures Valid() && currentIndex == NextIndex(old(currentIndex), |featured|)
      ensures isMuted == old(isMuted) && clipMuted == old(clipMuted) && clipVolume == old(clipVolume)
    {
      currentIndex := if currentIndex == |featured| - 1 then 0 else currentIndex + 1;
    }

    /** A dot button jumps to its own movie. */
    method GoToIndex(idx: int)
      requires Valid() && 0 <= idx < |featured|
      modifies this
      ensures Valid() && currentIndex == idx
      ensures isMuted == old(isMuted) && clipMuted == old(clipMuted) && clipVolume == old(clipVolume)
    {
      currentIndex := idx;
    }

    /** Flips the mute state; when a clip is playing its element follows, and unmuting also
        turns its volume up to full. */
    method HandleToggleMute()
      requires Valid() && |featured| > 0
      modifies this
      ensures Valid() && currentIndex == old(currentIndex) && isMuted == !old(isMuted)
      ensures ShowsMuteButton() ==> clipMuted == isMuted
      ensures ShowsMuteButton() && !isMuted ==> clipVolume == 1.0
      ensures ShowsMuteButton() && isMuted ==> clipVolume == old(clipVolume)
      ensures !ShowsMuteButton() ==> clipMuted == old(clipMuted) && clipVolume == old(clipVolume)
    {
      var newMuted := !isMuted;
      if CurrentMovie().preview != "" {
        clipMuted := newMuted;
        if !newMuted {
          clipVolume := 1.0;
        }
      }
      isMuted := newMuted;
    }
  }
}
