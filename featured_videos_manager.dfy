/** The admin panel's featured-videos tab: one category at a time, a picker listing the
    library videos not yet in that category, and the category's list with move and remove
    buttons. Every change goes through the catalog store. */
module FeaturedVideosManager {
  import opened JsText
  import opened Remote
  import opened Catalog
  import opened YouTubeVideo
  import YoutubeStore

  /** The tab label of each category; the tabs are shown in `CategoryAt` order. */
  function CategoryName(c: Category): string {
    match c
    case Trending => "Trending Now"
    case New => "Emotional"
    case Action => "Action & Adventure"
    case Comedy => "Comedy Picks"
    case Documentary => "Documentaries"
    case Music => "Music Videos"
    case Original => "Original Content"
  }

  /** Each tab has its own label, so the label names the category. */
  lemma CategoryNameNamesCategory(c: Category, d: Category)
    ensures CategoryName(c) == CategoryName(d) <==> c == d
  {
    if c != d {
      match c
      case Trending => assert CategoryName(c)[0] == 'T';
      case New => assert CategoryName(c)[0] == 'E';
      case Action => assert CategoryName(c)[0] == 'A';
      case Comedy => assert CategoryName(c)[0] == 'C';
      case Documentary => assert CategoryName(c)[0] == 'D';
      case Music => assert CategoryName(c)[0] == 'M';
      case Original => assert CategoryName(c)[0] == 'O';
    }
  }

  /** Whether some entry of a category's list has this id. */
  predicate IsFeaturedId(featured: seq<Video>, id: string) {
    exists k :: 0 <= k < |featured| && featured[k].id == id
  }

  /** The picker's options: the library videos, in library order, whose id no entry of the
      active category carries. */
  function AvailableVideos(videos: seq<Video>, featured: seq<Video>): seq<Video> {
    if |videos| == 0 then []
    else
      var rest := AvailableVideos(videos[1..], featured);
      if IsFeaturedId(featured, videos[0].id) then rest else [videos[0]] + rest
  }

  /** A video is offered exactly when it is in the library and not in the category. */
  lemma {:induction false} AvailableVideosMembers(videos: seq<Video>, featured: seq<Video>)
    ensures forall v :: v in AvailableVideos(videos, featured) <==> v in videos && !IsFeaturedId(featured, v.id)
    ensures |AvailableVideos(videos, featured)| <= |videos|
  {
    if |videos| > 0 {
      AvailableVideosMembers(videos[1..], featured);
      assert videos == [videos[0]] + videos[1..];
    }
  }

  /** With nothing featured in the category the whole library is offered, in order. */
  lemma {:induction false} AvailableWithNothingFeatured(videos: seq<Video>)
    ensures AvailableVideos(videos, []) == videos
  {
    if |videos| > 0 {
      AvailableWithNothingFeatured(videos[1..]);
      assert videos == [videos[0]] + videos[1..];
    }
  }

  /** Featuring a video takes every library entry with its id out of the picker and leaves
      the other options in their order. */
  lemma {:induction false} AvailableAfterFeature(videos: seq<Video>, featured: seq<Video>, v: Video)
    ensures AvailableVideos(videos, featured + [v]) == Without(AvailableVideos(videos, featured), v.id)
  {
    if |videos| > 0 {
      AvailableAfterFeature(videos[1..], featured, v);
      var w := videos[0];
      var rest := AvailableVideos(videos[1..], featured);
      assert IsFeaturedId(featured + [v], w.id) <==> IsFeaturedId(featured, w.id) || w.id == v.id by {
        if w.id == v.id {
          assert (featured + [v])[|featured|] == v;
        }
        if IsFeaturedId(featured + [v], w.id) && w.id != v.id {
          var k :| 0 <= k < |featured + [v]| && (featured + [v])[k].id == w.id;
          assert k < |featured| && (featured + [v])[k] == featured[k];
        }
        if IsFeaturedId(featured, w.id) {
          var k :| 0 <= k < |featured| && featured[k].id == w.id;
          assert (featured + [v])[k] == featured[k];
        }
      }
      if !IsFeaturedId(featured, w.id) {
        assert ([w] + rest)[1..] == rest;
      }
    }
  }

  const ListPlaceholder := "https://placehold.co/480x360/1E1E2A/00e0ff?text=Video"

  /** A listed entry's image: the custom thumbnail, else the YouTube image of the stored id
      when the stored platform is YouTube, else the placeholder; a failed load shows the
      placeholder. Unlike the card, the list never resolves the link. */
  function ListThumbnail(v: Video, loadError: bool): string {
    if loadError then ListPlaceholder
    else if v.thumbnail != "" then v.thumbnail
    else if v.platform == "youtube" && v.youtubeId != "" then CdnThumbnail(v.youtubeId)
    else ListPlaceholder
  }

  /** Without a custom thumbnail or a load error, the list shows a YouTube image exactly
      for an entry stored as YouTube with an id, and then the image of that id. */
  lemma ListThumbnailMeaning(v: Video, id: string)
    requires v.thumbnail == ""
    ensures ListThumbnail(v, false) == CdnThumbnail(id) <==> v.platform == "youtube" && v.youtubeId == id && id != ""
    ensures ListThumbnail(v, false) == ListPlaceholder <==> !(v.platform == "youtube" && v.youtubeId != "")
  {
    assert ListPlaceholder == "https://placehold.co/480x360/1E1E2A/00e0ff" + "?text=Video";
    assert ListPlaceholder[8] != CdnThumbnail(id)[8];
    assert ListPlaceholder[8] != CdnThumbnail(v.youtubeId)[8];
    if ListThumbnail(v, false) == CdnThumbnail(id) {
      CdnThumbnailInjective(v.youtubeId, id);
    }
  }

  /** For an entry stored as YouTube with an id, the list and the home-page card show the
      same image. */
  lemma ListAgreesWithCard(v: Video, loadError: bool)
    requires v.platform == "youtube" && v.youtubeId != ""
    ensures ListThumbnail(v, loadError) == CdnThumbnail(v.youtubeId) <==> ThumbnailUrl(v, loadError) == CdnThumbnail(v.youtubeId)
    ensures v.thumbnail != "" && !loadError ==> ListThumbnail(v, loadError) == ThumbnailUrl(v, loadError)
  {
    assert ListPlaceholder == "https://placehold.co/480x360/1E1E2A/00e0ff" + "?text=Video";
    assert ListPlaceholder[8] != CdnThumbnail(v.youtubeId)[8];
    CdnThumbnailIsNotFallback(v.youtubeId);
  }

  /** An entry's platform line shows the stored platform, or `Video` when none is stored. */
  function PlatformLabel(v: Video): (r: string)
    ensures r != ""
    ensures v.platform != "" ==> r == v.platform
  {
    if v.platform != "" then v.platform else "Video"
  }

  /** Positions are shown counted from one. */
  function PositionLabel(index: nat): (r: string)
    ensures forall i :: 0 <= i < |r| ==> '0' <= r[i] <= '9'
    ensures DigitsValue(r) == index + 1
  {
    NatToStringValue(index + 1);
    NatToString(index + 1)
  }

  predicate UpEnabled(index: nat) {
    index != 0
  }

  predicate DownEnabled(index: nat, count: nat) {
    index != count - 1
  }

  /** The list shown is the category's list and the database returns the category's rows in
      the same order, one row per entry. */
  predicate InStep(rows: seq<FeaturedRow>, list: seq<Video>) {
    && |rows| == |list|
    && (forall k :: 0 <= k < |list| ==> rows[k].video_id == list[k].id)
    && (forall a, b :: 0 <= a < b < |list| ==> list[a].id != list[b].id)
  }

  lemma RowIndexInStep(rows: seq<FeaturedRow>, list: seq<Video>, i: nat)
    requires InStep(rows, list) && i < |list|
    ensures YoutubeStore.FindRowIndex(rows, list[i].id) == Some(i)
  {
    forall k | 0 <= k < i ensures rows[k].video_id != list[i].id {
      assert list[k].id != list[i].id;
    }
  }

  /** While the list and the database are in step, a move button is enabled exactly when
      the store would swap the entry with its neighbour, and the store then trades the
      entry with the one shown above (or below) it. */
  lemma EnabledButtonMoves(rows: seq<FeaturedRow>, list: seq<Video>, i: nat, up: bool)
    requires InStep(rows, list) && i < |list|
    ensures (if up then UpEnabled(i) else DownEnabled(i, |list|)) <==> YoutubeStore.MovePlan(Ok(rows), list[i].id, up).SwapWith?
    ensures var step := YoutubeStore.MovePlan(Ok(rows), list[i].id, up);
      step.SwapWith? ==>
        && step.index == i && step.other == (if up then i - 1 else i + 1)
        && YoutubeStore.SwapInRange(list, step.index, step.other)[i] == list[step.other]
        && YoutubeStore.SwapInRange(list, step.index, step.other)[step.other] == list[i]
  {
    RowIndexInStep(rows, list, i);
  }

  class Manager {
    var activeCategory: Category
    var selectedVideo: string
    var categoryVideos: seq<Video>

    /** The list shown is the store's list for the active category. */
    ghost predicate Synced(store: YoutubeStore.Store)
      reads this, store
    {
      store.Valid() && activeCategory in store.featuredVideos && categoryVideos == store.featuredVideos[activeCategory]
    }

    /** The tab opens on `trending` with nothing picked. */
    constructor(store: YoutubeStore.Store)
      requires store.Valid()
      ensures Synced(store) && activeCategory == Trending && selectedVideo == ""
    {
      activeCategory, selectedVideo := Trending, "";
      KeyRoundTrip(Trending);
      categoryVideos := store.GetFeaturedVideos(Key(Trending));
    }

    /** The effect that reloads the list when the category or the store's lists change. */
    method LoadCategory(store: YoutubeStore.Store)
      requires store.Valid()
      modifies this
      ensures Synced(store) && activeCategory == old(activeCategory) && selectedVideo == old(selectedVideo)
    {
      KeyRoundTrip(activeCategory);
      categoryVideos := store.GetFeaturedVideos(Key(activeCategory));
    }

    /** The picker's current options. */
    function Options(store: YoutubeStore.Store): seq<Video>
      requires Synced(store)
      reads this, store
    {
      AvailableVideos(store.videos, store.featuredVideos[activeCategory])
    }

    method SelectCategory(store: YoutubeStore.Store, c: Category)
      requires store.Valid()
      modifies this
      ensures Synced(store) && activeCategory == c && selectedVideo == old(selectedVideo)
    {
      activeCategory := c;
      LoadCategory(store);
    }

    method SelectVideo(id: string)
      modifies this
      ensures selectedVideo == id && activeCategory == old(activeCategory) && categoryVideos == old(categoryVideos)
    {
      selectedVideo := id;
    }

    /** With a video picked, asks the store to feature it in the active category (which
        unfeatures it when the database already has the pair) and clears the pick; with
        none picked, does nothing. */
    method HandleAddVideo(store: YoutubeStore.Store, existingReply: Reply<seq<FeaturedRow>>, deleteReply: Reply<()>,
                          topReply: Reply<seq<FeaturedRow>>, insertReply: Reply<()>)
      returns (writes: seq<YoutubeStore.Write>)
      requires Synced(store)
      modifies this, store
      ensures Synced(store) && activeCategory == old(activeCategory) && store.videos == old(store.videos)
      ensures old(selectedVideo) == "" ==>
        writes == [] && selectedVideo == "" && store.featuredVideos == old(store.featuredVideos)
      ensures old(selectedVideo) != "" ==> selectedVideo == ""
      ensures old(selectedVideo) != "" && existingReply.Err? ==>
        writes == [] && store.featuredVideos == old(store.featuredVideos)
      ensures old(selectedVideo) != "" && existingReply.Ok? && |existingReply.value| > 0 ==>
        && writes == [YoutubeStore.DeleteFeatured(old(selectedVideo), activeCategory)]
        && (deleteReply.Ok? ==>
              store.featuredVideos == YoutubeStore.Unfeatured(old(store.featuredVideos), activeCategory, old(selectedVideo)))
        && (deleteReply.Err? ==> store.featuredVideos == old(store.featuredVideos))
      ensures old(selectedVideo) != "" && existingReply.Ok? && |existingReply.value| == 0 && topReply.Err? ==>
        writes == [] && store.featuredVideos == old(store.featuredVideos)
      ensures old(selectedVideo) != "" && existingReply.Ok? && |existingReply.value| == 0 && topReply.Ok? ==>
        && writes == [YoutubeStore.InsertFeatured(old(selectedVideo), activeCategory, YoutubeStore.PositionAfter(topReply.value))]
        && (insertReply.Err? || FindById(old(store.videos), old(selectedVideo)).None? ==>
              store.featuredVideos == old(store.featuredVideos))
        && (insertReply.Ok? && FindById(old(store.videos), old(selectedVideo)).Some? ==>
              store.featuredVideos == old(store.featuredVideos)[activeCategory :=
                old(categoryVideos) + [FindById(old(store.videos), old(selectedVideo)).value]])
    {
      if selectedVideo == "" {
        writes := [];
        return;
      }
      writes := store.FeatureVideo(selectedVideo, activeCategory, existingReply, deleteReply, topReply, insertReply);
      selectedVideo := "";
      LoadCategory(store);
    }

    method HandleRemoveVideo(store: YoutubeStore.Store, videoId: string, deleteReply: Reply<()>)
      returns (writes: seq<YoutubeStore.Write>)
      requires Synced(store)
      modifies this, store
      ensures Synced(store) && activeCategory == old(activeCategory) && selectedVideo == old(selectedVideo)
      ensures store.videos == old(store.videos)
      ensures writes == [YoutubeStore.DeleteFeatured(videoId, activeCategory)]
      ensures deleteReply.Ok? ==>
        && store.featuredVideos == YoutubeStore.Unfeatured(old(store.featuredVideos), activeCategory, videoId)
        && categoryVideos == Without(old(categoryVideos), videoId)
      ensures deleteReply.Ok? ==> forall v :: v in categoryVideos <==> v in old(categoryVideos) && v.id != videoId
      ensures deleteReply.Err? ==> store.featuredVideos == old(store.featuredVideos) && categoryVideos == old(categoryVideos)
    {
      writes := store.UnfeatureVideo(videoId, activeCategory, deleteReply);
      LoadCategory(store);
    }

    method HandleMoveVideo(store: YoutubeStore.Store, videoId: string, up: bool,
                           listReply: Reply<seq<FeaturedRow>>, upsertReply: Reply<()>)
      returns (writes: seq<YoutubeStore.Write>)
      requires Synced(store)
      modifies this, store
      ensures Synced(store) && activeCategory == old(activeCategory) && selectedVideo == old(selectedVideo)
      ensures store.videos == old(store.videos)
      ensures YoutubeStore.MovePlan(listReply, videoId, up).SwapWith? && upsertReply.Ok? ==>
        var step := YoutubeStore.MovePlan(listReply, videoId, up);
        categoryVideos == YoutubeStore.SwapInRange(old(categoryVideos), step.index, step.other)
      ensures !(YoutubeStore.MovePlan(listReply, videoId, up).SwapWith? && upsertReply.Ok?) ==>
        categoryVideos == old(categoryVideos)
    {
      writes := store.MoveFeaturedVideo(videoId, activeCategory, up, listReply, upsertReply);
      LoadCategory(store);
    }
  }
}
