/** A home-page row of video cards: a carousel that shows four cards at a time, scrolls one
    card per arrow press, and opens the modal player for the card that was played. */
module YouTubeVideoRow {
  import opened JsText
  import opened Catalog
  import YouTubeModal

  const ItemsPerView: nat := 4

  /** The last index the carousel can scroll to: `Math.max(0, length - 4)`. */
  function MaxIndex(count: nat): (r: nat)
    ensures count <= ItemsPerView ==> r == 0
    ensures count > ItemsPerView ==> r + ItemsPerView == count
  {
    if count > ItemsPerView then count - ItemsPerView else 0
  }

  /** `Math.min(prev + 1, maxIndex)`. */
  function NextIndex(i: int, count: nat): int {
    if i + 1 < MaxIndex(count) then i + 1 else MaxIndex(count)
  }

  /** `Math.max(prev - 1, 0)`. */
  function PrevIndex(i: int): int {
    if i - 1 > 0 then i - 1 else 0
  }

  /** The arrows are drawn only when they are wanted and there are more cards than fit. */
  predicate ShowsArrows(showNavigationArrows: bool, count: nat) {
    showNavigationArrows && count > ItemsPerView
  }

  predicate PrevDisabled(i: int) {
    i == 0
  }

  predicate NextDisabled(i: int, count: nat) {
    i >= MaxIndex(count)
  }

  /** Scrolling stays within `0..MaxIndex`: the next index is always in range, and the
      previous one is whenever the index was. */
  lemma StepsStayInRange(i: int, count: nat)
    ensures 0 <= i ==> 0 <= NextIndex(i, count) <= MaxIndex(count)
    ensures 0 <= i <= MaxIndex(count) ==> 0 <= PrevIndex(i) <= MaxIndex(count)
  {
  }

  /** Within range, a disabled arrow is exactly one whose press would change nothing. */
  lemma DisabledMeansNoEffect(i: int, count: nat)
    requires 0 <= i <= MaxIndex(count)
    ensures PrevDisabled(i) <==> PrevIndex(i) == i
    ensures NextDisabled(i, count) <==> NextIndex(i, count) == i
  {
  }

  /** Pressing next then previous, or previous then next, returns to the same index when
      the first press moved. */
  lemma StepsUndoEachOther(i: int, count: nat)
    requires 0 <= i
    ensures i < MaxIndex(count) ==> PrevIndex(NextIndex(i, count)) == i
    ensures 0 < i <= MaxIndex(count) ==> NextIndex(PrevIndex(i), count) == i
  {
  }

  /** Every card can be brought into view: a reachable index whose four-card window holds
      card `k`. */
  function ScrollTarget(count: nat, k: nat): (i: nat)
    requires k < count
    ensures i <= MaxIndex(count) && i <= k < i + ItemsPerView
  {
    if k <= MaxIndex(count) then k else MaxIndex(count)
  }

  /** Pressing next `n` times from the start. */
  function NextTimes(n: nat, count: nat): int {
    if n == 0 then 0 else NextIndex(NextTimes(n - 1, count), count)
  }

  /** Pressing next keeps scrolling one card at a time until the last window is reached,
      and then stays there. */
  lemma {:induction false} NextTimesClamps(n: nat, count: nat)
    ensures NextTimes(n, count) == if n <= MaxIndex(count) then n else MaxIndex(count)
  {
    if n > 0 {
      NextTimesClamps(n - 1, count);
    }
  }

  class Row {
    const videos: seq<Video>
    const showNavigationArrows: bool
    var currentIndex: int
    var activeVideo: Option<Video>

    /** The carousel never scrolls past either end. */
    ghost predicate Valid()
      reads this
    {
      0 <= currentIndex <= MaxIndex(|videos|)
    }

    /** A row starts at the first card with no modal open. */
    constructor(videos: seq<Video>, showNavigationArrows: bool)
      ensures Valid() && this.videos == videos && this.showNavigationArrows == showNavigationArrows
      ensures currentIndex == 0 && activeVideo == None
    {
      this.videos := videos;
      this.showNavigationArrows := showNavigationArrows;
      currentIndex := 0;
      activeVideo := None;
    }

    /** An empty row renders nothing at all. */
    function Renders(): (r: bool)
      reads this
      ensures r <==> |videos| > 0
    {
      |videos| != 0
    }

    method NextSlide()
      requires Valid()
      modifies this
      ensures Valid() && activeVideo == old(activeVideo)
      ensures currentIndex == NextIndex(old(currentIndex), |videos|)
      ensures old(currentIndex) < MaxIndex(|videos|) ==> currentIndex == old(currentIndex) + 1
      ensures old(currentIndex) == MaxIndex(|videos|) ==> currentIndex == old(currentIndex)
    {
      currentIndex := if currentIndex + 1 < MaxIndex(|videos|) then currentIndex + 1 else MaxIndex(|videos|);
    }

    method PrevSlide()
      requires Valid()
      modifies this
      ensures Valid() && activeVideo == old(activeVideo)
      ensures currentIndex == PrevIndex(old(currentIndex))
      ensures old(currentIndex) > 0 ==> currentIndex == old(currentIndex) - 1
      ensures old(currentIndex) == 0 ==> currentIndex == 0
    {
      currentIndex := if currentIndex - 1 > 0 then currentIndex - 1 else 0;
    }

    /** Playing a card opens the modal on it. */
    method HandleVideoPlay(video: Video)
      modifies this
      ensures activeVideo == Some(video) && currentIndex == old(currentIndex)
    {
      activeVideo := Some(video);
    }

    method CloseModal()
      modifies this
      ensures activeVideo == None && currentIndex == old(currentIndex)
    {
      activeVideo := None;
    }

    /** What the modal shows: nothing until a card is played, then that card. */
    function Modal(): (r: YouTubeModal.ModalView)
      reads this
      ensures r.Nothing? <==> activeVideo.None?
      ensures !r.Nothing? ==> r.video == activeVideo.value
    {
      YouTubeModal.ModalFor(activeVideo)
    }
  }
}
