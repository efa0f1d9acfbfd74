/** The featured-video catalog store: the list of videos, the ordered featured list of each
    of the seven categories, a loading flag and the last error. Every action first sets
    `isLoading` and clears `error`, awaits one or more database calls and then publishes its
    result; the replies of those calls are the actions' parameters here, and each action
    returns the writes it sent, in order. */
module YoutubeStore {
  import opened JsText
  import opened Remote
  import opened Catalog

  /** The row `addVideo` inserts: it carries no id, the database assigns one. */
  datatype NewVideoRow = NewVideoRow(
    title: string,
    video_url: string,
    platform: string,
    youtube_id: string,
    description: string,
    tags: seq<string>,
    thumbnail: string)

  /** The columns `updateVideo` sets (`thumbnail` is `None` for null). */
  datatype VideoPatch = VideoPatch(
    title: string,
    description: string,
    video_url: string,
    youtube_id: string,
    platform: string,
    tags: seq<string>,
    thumbnail: Option<string>)

  datatype PositionUpdate = PositionUpdate(id: string, position: Option<int>)

  /** A write sent to the database. */
  datatype Write =
    | InsertVideoRow(row: NewVideoRow)
    | UpdateVideoRow(id: string, patch: VideoPatch)
    | DeleteVideoRow(id: string)
    | DeleteFeaturedOf(videoId: string)
    | DeleteFeatured(videoId: string, category: Category)
    | InsertFeatured(videoId: string, category: Category, position: int)
    | UpsertPositions(updates: seq<PositionUpdate>)

  datatype Snapshot = Snapshot(videos: seq<Video>, featured: map<Category, seq<Video>>)

  const FetchFallback := "Failed to fetch videos"
  const AddFallback := "Failed to add video"
  const UpdateFallback := "Failed to update video"
  const RemoveFallback := "Failed to remove video"
  const FeatureFallback := "Failed to feature video"
  const UnfeatureFallback := "Failed to unfeature video"
  const MoveFallback := "Failed to move video"

  /** What the engine throws when `push` is looked up on an inherited property. */
  const PushTypeError := Thrown("featuredByCategory[category].push is not a function")

  function EmptyBuckets(): (m: map<Category, seq<Video>>)
    ensures forall c: Category :: c in m && m[c] == []
  {
    CategoriesComplete();
    map c | c in Categories :: []
  }

  /** `fetchVideos` keeps both spellings of the URL and of the YouTube id. */
  function Processed(row: VideoRow): (v: Video)
    ensures v.id == row.id && v.videoUrl == row.video_url && v.video_url == row.video_url
    ensures v.youtubeId == row.youtube_id && v.youtube_id == row.youtube_id
    ensures v.featuredPosition.None?
  {
    Video(row.id, row.title, row.video_url, row.video_url, row.platform, row.youtube_id,
          row.youtube_id, row.description, row.tags, row.thumbnail, None)
  }

  function ProcessAll(rows: seq<VideoRow>): (r: seq<Video>)
    ensures |r| == |rows| && forall i :: 0 <= i < |rows| ==> r[i] == Processed(rows[i])
  {
    seq(|rows|, i requires 0 <= i < |rows| => Processed(rows[i]))
  }

  /** `addVideo` appends the row the database returned as it is: only the column spellings
      (`video_url`, `youtube_id`) are set. */
  function Inserted(row: VideoRow): (v: Video)
    ensures v.id == row.id && v.video_url == row.video_url && v.youtube_id == row.youtube_id
    ensures v.videoUrl == "" && v.youtubeId == ""
  {
    Video(row.id, row.title, "", row.video_url, row.platform, "", row.youtube_id,
          row.description, row.tags, row.thumbnail, None)
  }

  function Or(s: string, default: string): string {
    if s != "" then s else default
  }

  /** The row `addVideo` sends for a video. */
  function NewVideoPayload(v: Video): (r: NewVideoRow)
    ensures r.platform != "" && r.title == v.title && r.video_url == v.videoUrl
    ensures r.youtube_id == v.youtubeId && r.description == v.description && r.tags == v.tags
  {
    NewVideoRow(v.title, v.videoUrl, Or(v.platform, "youtube"), v.youtubeId, v.description,
                v.tags, v.thumbnail)
  }

  /** The columns `updateVideo` sends for a video. */
  function Patch(v: Video): (r: VideoPatch)
    ensures r.platform != "" && r.video_url == v.videoUrl && r.youtube_id == v.youtubeId
    ensures r.thumbnail.None? <==> v.thumbnail == ""
  {
    VideoPatch(v.title, v.description, v.videoUrl, v.youtubeId, Or(v.platform, "youtube"),
               v.tags, if v.thumbnail == "" then None else Some(v.thumbnail))
  }

  /** The local copy `updateVideo` stores: the edited record with both spellings aligned. */
  function Refreshed(v: Video): (r: Video)
    ensures r.video_url == r.videoUrl == v.videoUrl && r.youtube_id == r.youtubeId == v.youtubeId
    ensures r.id == v.id && r.title == v.title && r.tags == v.tags
  {
    v.(video_url := v.videoUrl, youtube_id := v.youtubeId)
  }

  /** `videos.map(v => v.id === id ? nv : v)`. */
  function ReplaceById(videos: seq<Video>, id: string, nv: Video): (r: seq<Video>)
    ensures |r| == |videos|
    ensures forall i :: 0 <= i < |videos| && videos[i].id != id ==> r[i] == videos[i]
    ensures forall i :: 0 <= i < |videos| && videos[i].id == id ==> r[i] == nv
  {
    seq(|videos|, i requires 0 <= i < |videos| => if videos[i].id == id then nv else videos[i])
  }

  /** Replacing an id that no video has changes nothing; replacing by a record with the same
      id a second time changes nothing further. */
  lemma ReplaceByIdStable(videos: seq<Video>, id: string, nv: Video)
    ensures (forall i :: 0 <= i < |videos| ==> videos[i].id != id) ==> ReplaceById(videos, id, nv) == videos
    ensures nv.id == id ==> ReplaceById(ReplaceById(videos, id, nv), id, nv) == ReplaceById(videos, id, nv)
  {
  }

  /** Every category with the video filtered out. */
  function RemovedEverywhere(featured: map<Category, seq<Video>>, id: string): (r: map<Category, seq<Video>>)
    ensures r.Keys == featured.Keys
    ensures forall c :: c in r ==> r[c] == Without(featured[c], id)
  {
    map c | c in featured :: Without(featured[c], id)
  }

  /** One category with the video filtered out, the others as they were. */
  function Unfeatured(featured: map<Category, seq<Video>>, c: Category, id: string): (r: map<Category, seq<Video>>)
    requires c in featured
    ensures r.Keys == featured.Keys
    ensures forall d :: d in featured && d != c ==> r[d] == featured[d]
    ensures forall v :: v in r[c] <==> v in featured[c] && v.id != id
  {
    featured[c := Without(featured[c], id)]
  }

  /** After a removal no category holds the video, and every other featured entry is still
      there. */
  lemma RemovedEverywhereProperties(featured: map<Category, seq<Video>>, id: string)
    ensures forall c, v :: c in featured && v in RemovedEverywhere(featured, id)[c] ==> v.id != id
    ensures forall c, v :: c in featured && v in featured[c] && v.id != id ==> v in RemovedEverywhere(featured, id)[c]
  {
  }

  /** `positionData.length > 0 ? positionData[0].position + 1 : 0`, where a null position
      counts as 0 in the addition. */
  function PositionAfter(top: seq<FeaturedRow>): (p: int)
    ensures |top| == 0 ==> p == 0
    ensures |top| > 0 && top[0].position.Some? ==> p == top[0].position.value + 1
    ensures |top| > 0 && top[0].position.None? ==> p == 1
  {
    if |top| == 0 then 0
    else match top[0].position
      case None => 1
      case Some(q) => q + 1
  }

  predicate HasPosition(row: FeaturedRow) {
    row.position.Some?
  }

  /** The reply to the query for the highest position of a category: its rows ordered by
      position, largest first. */
  predicate DescendingPositions(rows: seq<FeaturedRow>) {
    && (forall i :: 0 <= i < |rows| ==> HasPosition(rows[i]))
    && (forall i, j :: 0 <= i < j < |rows| ==> rows[j].position.value <= rows[i].position.value)
  }

  /** A new featured entry goes after every existing one: when the top row answers the
      descending query over the category's positioned rows, the new position is larger than
      all of them, and it is 0 for an empty category. */
  lemma PositionAfterExceeds(rows: seq<FeaturedRow>, top: seq<FeaturedRow>)
    requires DescendingPositions(rows)
    requires top == rows[..if |rows| == 0 then 0 else 1]
    ensures forall i :: 0 <= i < |rows| ==> rows[i].position.value < PositionAfter(top)
    ensures |rows| == 0 ==> PositionAfter(top) == 0
  {
  }

  // ---------------------------------------------------------------------------------
  // Fetch and join

  /** A featured row names video `v` in category `c`: its category is `c`'s key and `v` is
      the first fetched video with the row's video id, stamped with the row's position. */
  predicate JoinsTo(videos: seq<Video>, row: FeaturedRow, c: Category, v: Video) {
    && ParseCategory(row.category) == Some(c)
    && FindById(videos, row.video_id).Some?
    && v == FindById(videos, row.video_id).value.(featuredPosition := row.position)
  }

  /** The copy one row adds to category `c`: none, or its video stamped with its position. */
  function Contribution(videos: seq<Video>, row: FeaturedRow, c: Category): seq<Video> {
    match FindById(videos, row.video_id)
    case None => []
    case Some(v) => if ParseCategory(row.category) == Some(c) then [v.(featuredPosition := row.position)] else []
  }

  lemma ContributionMembers(videos: seq<Video>, row: FeaturedRow, c: Category)
    ensures forall v :: v in Contribution(videos, row, c) <==> JoinsTo(videos, row, c, v)
  {
  }

  /** The copies the `forEach` loop pushes into category `c`, in row order. */
  function Joined(videos: seq<Video>, rows: seq<FeaturedRow>, c: Category): seq<Video> {
    if |rows| == 0 then []
    else Joined(videos, rows[..|rows| - 1], c) + Contribution(videos, rows[|rows| - 1], c)
  }

  /** A row that names a fetched video but whose category is an inherited property name:
      pushing to it throws. */
  predicate Blocks(videos: seq<Video>, row: FeaturedRow) {
    FindById(videos, row.video_id).Some? && IsPrototypeKey(row.category)
  }

  predicate Blocked(videos: seq<Video>, rows: seq<FeaturedRow>) {
    exists k :: 0 <= k < |rows| && Blocks(videos, rows[k])
  }

  /** What a fetch publishes, or why it fails. */
  function FetchOutcome(videosReply: Reply<seq<VideoRow>>, featuredReply: Reply<seq<FeaturedRow>>): (r: Reply<Snapshot>)
    ensures videosReply.Err? ==> r == Err(videosReply.failure)
    ensures videosReply.Ok? && featuredReply.Err? ==> r == Err(featuredReply.failure)
    ensures r.Ok? ==> r.value.videos == ProcessAll(videosReply.value)
    ensures r.Ok? ==> forall c: Category :: c in r.value.featured
  {
    match videosReply
    case Err(f) => Err(f)
    case Ok(vrows) =>
      match featuredReply
      case Err(f) => Err(f)
      case Ok(rows) =>
        var processed := ProcessAll(vrows);
        if Blocked(processed, rows) then Err(PushTypeError)
        else
          CategoriesComplete();
          Ok(Snapshot(processed, map c | c in Categories :: SortByPosition(Joined(processed, rows, c))))
  }

  /** The members of a category's join are exactly the joins of its rows. */
  lemma {:induction false} JoinedMembers(videos: seq<Video>, rows: seq<FeaturedRow>, c: Category)
    ensures forall v :: v in Joined(videos, rows, c) <==> exists k :: 0 <= k < |rows| && JoinsTo(videos, rows[k], c, v)
  {
    if |rows| > 0 {
      var init := rows[..|rows| - 1];
      JoinedMembers(videos, init, c);
      ContributionMembers(videos, rows[|rows| - 1], c);
      forall v ensures v in Joined(videos, rows, c) <==> exists k :: 0 <= k < |rows| && JoinsTo(videos, rows[k], c, v) {
        if v in Joined(videos, rows, c) {
          if v in Joined(videos, init, c) {
            var k :| 0 <= k < |init| && JoinsTo(videos, init[k], c, v);
            assert rows[k] == init[k];
          } else {
            assert JoinsTo(videos, rows[|rows| - 1], c, v);
          }
        }
        if exists k :: 0 <= k < |rows| && JoinsTo(videos, rows[k], c, v) {
          var k :| 0 <= k < |rows| && JoinsTo(videos, rows[k], c, v);
          if k < |rows| - 1 {
            assert init[k] == rows[k];
          }
        }
      }
    }
  }

  /** Without fetched videos no row joins and none blocks. */
  lemma {:induction false} JoinedWithoutVideos(rows: seq<FeaturedRow>, c: Category)
    ensures Joined([], rows, c) == [] && !Blocked([], rows)
  {
    if |rows| > 0 {
      JoinedWithoutVideos(rows[..|rows| - 1], c);
    }
  }

  /** With no videos nothing joins and no row blocks the fetch, so the empty lists are the
      sorted joins. */
  lemma EmptyJoinSorted(rows: seq<FeaturedRow>)
    ensures !Blocked([], rows)
    ensures forall c: Category :: c in EmptyBuckets() && EmptyBuckets()[c] == SortByPosition(Joined([], rows, c))
  {
    forall c: Category ensures EmptyBuckets()[c] == SortByPosition(Joined([], rows, c)) {
      JoinedWithoutVideos(rows, c);
    }
    JoinedWithoutVideos(rows, Trending);
  }

  /** Lists holding every category's sorted join are what a fetch publishes. */
  lemma FetchedSnapshot(vrows: seq<VideoRow>, rows: seq<FeaturedRow>, buckets: map<Category, seq<Video>>)
    requires !Blocked(ProcessAll(vrows), rows)
    requires forall c: Category :: c in buckets && buckets[c] == SortByPosition(Joined(ProcessAll(vrows), rows, c))
    ensures FetchOutcome(Ok(vrows), Ok(rows)) == Ok(Snapshot(ProcessAll(vrows), buckets))
  {
    CategoriesComplete();
    assert buckets == map c | c in Categories :: SortByPosition(Joined(ProcessAll(vrows), rows, c));
  }

  /** After a successful fetch a category is the sorted join of its rows. */
  lemma FetchedCategory(videosReply: Reply<seq<VideoRow>>, featuredReply: Reply<seq<FeaturedRow>>, c: Category)
    requires FetchOutcome(videosReply, featuredReply).Ok?
    ensures featuredReply.Ok?
    ensures var s := FetchOutcome(videosReply, featuredReply).value;
      c in s.featured && s.featured[c] == SortByPosition(Joined(s.videos, featuredReply.value, c))
  {
    CategoriesComplete();
  }

  /** After a successful fetch every category is sorted by ascending position (a missing
      position counting as 0). */
  lemma FetchedSorted(videosReply: Reply<seq<VideoRow>>, featuredReply: Reply<seq<FeaturedRow>>, c: Category)
    requires FetchOutcome(videosReply, featuredReply).Ok?
    ensures SortedByPosition(FetchOutcome(videosReply, featuredReply).value.featured[c])
  {
    var s := FetchOutcome(videosReply, featuredReply).value;
    FetchedCategory(videosReply, featuredReply, c);
    SortByPositionCorrect(Joined(s.videos, featuredReply.value, c));
  }

  /** After a successful fetch a category holds exactly the copies its rows join to: rows
      naming a missing video, and rows of another or an unknown category, are dropped. */
  lemma FetchedMembers(videosReply: Reply<seq<VideoRow>>, featuredReply: Reply<seq<FeaturedRow>>, c: Category)
    requires FetchOutcome(videosReply, featuredReply).Ok?
    ensures featuredReply.Ok?
    ensures var s := FetchOutcome(videosReply, featuredReply).value;
      forall v :: v in s.featured[c] <==>
        exists k :: 0 <= k < |featuredReply.value| && JoinsTo(s.videos, featuredReply.value[k], c, v)
  {
    var s := FetchOutcome(videosReply, featuredReply).value;
    FetchedCategory(videosReply, featuredReply, c);
    var j := Joined(s.videos, featuredReply.value, c);
    SortByPositionCorrect(j);
    JoinedMembers(s.videos, featuredReply.value, c);
    forall v ensures v in s.featured[c] <==> v in j {
      assert v in s.featured[c] <==> v in multiset(s.featured[c]);
      assert v in j <==> v in multiset(j);
    }
  }

  /** With no videos fetched every category is empty. */
  lemma FetchedWithoutVideos(videosReply: Reply<seq<VideoRow>>, featuredReply: Reply<seq<FeaturedRow>>, c: Category)
    requires FetchOutcome(videosReply, featuredReply).Ok?
    requires |FetchOutcome(videosReply, featuredReply).value.videos| == 0
    ensures FetchOutcome(videosReply, featuredReply).value.featured[c] == []
  {
    FetchedCategory(videosReply, featuredReply, c);
    JoinedWithoutVideos(featuredReply.value, c);
  }

  /** A fetch whose two reads succeed fails only on a row with an inherited property name as
      its category. */
  lemma FetchFailsOnlyOnInheritedKey(videosReply: Reply<seq<VideoRow>>, featuredReply: Reply<seq<FeaturedRow>>)
    requires videosReply.Ok? && featuredReply.Ok?
    ensures FetchOutcome(videosReply, featuredReply).Err? <==>
      exists k :: 0 <= k < |featuredReply.value| && Blocks(ProcessAll(videosReply.value), featuredReply.value[k])
    ensures FetchOutcome(videosReply, featuredReply).Err? ==>
      FetchOutcome(videosReply, featuredReply).failure == PushTypeError
  {
  }

  /** The `forEach` over the featured rows: pushes each row's video copy into its category,
      skipping rows without a fetched video or with an unknown or empty category, and stops
      at the first row whose category is an inherited property name. */
  method JoinFeatured(processed: seq<Video>, rows: seq<FeaturedRow>)
    returns (buckets: map<Category, seq<Video>>, blocked: bool)
    ensures blocked <==> Blocked(processed, rows)
    ensures !blocked ==> forall c: Category :: c in buckets && buckets[c] == Joined(processed, rows, c)
  {
    buckets := EmptyBuckets();
    var i := 0;
    while i < |rows|
      invariant 0 <= i <= |rows|
      invariant forall c: Category :: c in buckets && buckets[c] == Joined(processed, rows[..i], c)
      invariant forall k :: 0 <= k < i ==> !Blocks(processed, rows[k])
    {
      ghost var before := buckets;
      var stop;
      buckets, stop := PushRow(processed, rows[i], buckets);
      if stop {
        return buckets, true;
      }
      JoinedStep(processed, rows, i, before);
      i := i + 1;
    }
    assert rows[..|rows|] == rows;
    blocked := false;
  }

  /** One pass of the `forEach` body: a row naming a fetched video and a non-empty category
      pushes the video's copy into that category, or throws when the category is an
      inherited property name; any other row changes nothing. */
  method PushRow(processed: seq<Video>, row: FeaturedRow, buckets: map<Category, seq<Video>>)
    returns (pushed: map<Category, seq<Video>>, throws: bool)
    ensures throws <==> Blocks(processed, row)
    ensures !throws ==> pushed == Pushed(buckets, processed, row)
  {
    pushed, throws := buckets, false;
    var found := FindById(processed, row.video_id);
    if found.Some? && row.category != "" {
      if IsPrototypeKey(row.category) {
        return buckets, true;
      }
      match ParseCategory(row.category)
      case Some(c) =>
        if c in buckets {
          pushed := buckets[c := buckets[c] + [found.value.(featuredPosition := row.position)]];
        }
      case None =>
    }
  }

  /** The buckets after one row of the loop: its copy appended to the category it names. */
  function Pushed(buckets: map<Category, seq<Video>>, videos: seq<Video>, row: FeaturedRow): map<Category, seq<Video>> {
    match FindById(videos, row.video_id)
    case None => buckets
    case Some(v) =>
      match ParseCategory(row.category)
      case None => buckets
      case Some(c) => if c in buckets then buckets[c := buckets[c] + [v.(featuredPosition := row.position)]] else buckets
  }

  /** One more row extends each category's join by that row's contribution. */
  lemma JoinedStep(videos: seq<Video>, rows: seq<FeaturedRow>, i: nat, before: map<Category, seq<Video>>)
    requires i < |rows|
    requires forall c: Category :: c in before && before[c] == Joined(videos, rows[..i], c)
    ensures forall c: Category :: c in Pushed(before, videos, rows[i])
                                 && Pushed(before, videos, rows[i])[c] == Joined(videos, rows[..i + 1], c)
  {
    assert rows[..i + 1][..i] == rows[..i];
  }

  /** The categories before place `k` sorted, the others as they are. */
  function SortedBelow(buckets: map<Category, seq<Video>>, k: nat): (m: map<Category, seq<Video>>)
    ensures m.Keys == buckets.Keys
  {
    map c | c in buckets :: if Ordinal(c) < k then SortByPosition(buckets[c]) else buckets[c]
  }

  /** Sorts every category's list by position, one category after the other. */
  method SortEach(buckets: map<Category, seq<Video>>) returns (sorted: map<Category, seq<Video>>)
    requires forall c: Category :: c in buckets
    ensures forall c: Category :: c in sorted && sorted[c] == SortByPosition(buckets[c])
  {
    sorted := buckets;
    var k := 0;
    while k < 7
      invariant 0 <= k <= 7 && sorted == SortedBelow(buckets, k)
    {
      var c := CategoryAt(k);
      SortedBelowStep(buckets, k);
      sorted := sorted[c := SortByPosition(sorted[c])];
      k := k + 1;
    }
  }

  lemma SortedBelowStep(buckets: map<Category, seq<Video>>, k: nat)
    requires k < 7 && CategoryAt(k) in buckets
    ensures SortedBelow(buckets, k)[CategoryAt(k)] == buckets[CategoryAt(k)]
    ensures SortedBelow(buckets, k)[CategoryAt(k) := SortByPosition(buckets[CategoryAt(k)])] == SortedBelow(buckets, k + 1)
  {
    var m := SortedBelow(buckets, k)[CategoryAt(k) := SortByPosition(buckets[CategoryAt(k)])];
    var n := SortedBelow(buckets, k + 1);
    forall c | c in m ensures m[c] == n[c] {
      CategoryAtOrdinal(c);
    }
  }

  // ---------------------------------------------------------------------------------
  // Moving an entry

  /** What a move does, decided from the category's rows as the database returns them. */
  datatype MoveStep =
    | MoveFails(failure: Failure)
    | AtEdge
    | SwapWith(index: nat, other: nat, updates: seq<PositionUpdate>)

  /** `featuredData.findIndex(item => item.video_id === videoId)`. */
  function FindRowIndex(rows: seq<FeaturedRow>, videoId: string): (r: Option<nat>)
    ensures r.Some? ==> r.value < |rows| && rows[r.value].video_id == videoId
    ensures r.Some? ==> forall k :: 0 <= k < r.value ==> rows[k].video_id != videoId
    ensures r.None? ==> forall k :: 0 <= k < |rows| ==> rows[k].video_id != videoId
  {
    if |rows| == 0 then None
    else if rows[0].video_id == videoId then Some(0)
    else match FindRowIndex(rows[1..], videoId)
      case None => None
      case Some(k) => Some(k + 1)
  }

  /** The move decision: a read failure, an empty category or an absent video is an error;
      a step past either end does nothing; otherwise the entry trades positions with its
      neighbour in the returned order. */
  function MovePlan(reply: Reply<seq<FeaturedRow>>, videoId: string, up: bool): (r: MoveStep)
    ensures reply.Err? ==> r == MoveFails(reply.failure)
    ensures reply.Ok? && |reply.value| == 0 ==> r == MoveFails(Thrown("No featured videos found in this category"))
    ensures reply.Ok? && |reply.value| > 0 && (forall k :: 0 <= k < |reply.value| ==> reply.value[k].video_id != videoId)
            ==> r == MoveFails(Thrown("Video not found in this category"))
    ensures r.AtEdge? || r.SwapWith? ==> reply.Ok? && FindRowIndex(reply.value, videoId).Some?
    ensures r.AtEdge? ==> var i := FindRowIndex(reply.value, videoId).value;
                          (up && i == 0) || (!up && i == |reply.value| - 1)
    ensures r.SwapWith? ==>
      var rows := reply.value;
      && r.index == FindRowIndex(rows, videoId).value
      && r.other < |rows|
      && r.other == (if up then r.index - 1 else r.index + 1)
      && r.updates == [PositionUpdate(rows[r.index].id, rows[r.other].position),
                       PositionUpdate(rows[r.other].id, rows[r.index].position)]
  {
    match reply
    case Err(f) => MoveFails(f)
    case Ok(rows) =>
      if |rows| == 0 then MoveFails(Thrown("No featured videos found in this category"))
      else match FindRowIndex(rows, videoId)
        case None => MoveFails(Thrown("Video not found in this category"))
        case Some(i) =>
          var j := if up then i - 1 else i + 1;
          if j < 0 || j >= |rows| then AtEdge
          else SwapWith(i, j, [PositionUpdate(rows[i].id, rows[j].position),
                               PositionUpdate(rows[j].id, rows[i].position)])
  }

  /** An interior entry always moves, in either direction. */
  lemma InteriorEntryMoves(rows: seq<FeaturedRow>, videoId: string, up: bool)
    requires FindRowIndex(rows, videoId).Some?
    requires 0 < FindRowIndex(rows, videoId).value < |rows| - 1
    ensures MovePlan(Ok(rows), videoId, up).SwapWith?
  {
  }

  /** The local swap: the two slots trade places when both exist, and the list is left as it
      is otherwise. */
  function SwapInRange(s: seq<Video>, i: nat, j: nat): (r: seq<Video>)
    ensures |r| == |s| && multiset(r) == multiset(s)
    ensures i < |s| && j < |s| ==> r[i] == s[j] && r[j] == s[i]
    ensures forall k :: 0 <= k < |s| && k != i && k != j ==> r[k] == s[k]
    ensures !(i < |s| && j < |s|) ==> r == s
  {
    if i < |s| && j < |s| then s[i := s[j]][j := s[i]] else s
  }

  /** The local swap on a copy of the category's list: the copy's two slots trade places
      when both exist. */
  method SwapSlots(local: seq<Video>, i: nat, j: nat) returns (r: seq<Video>)
    ensures r == SwapInRange(local, i, j)
  {
    if i < |local| && j < |local| {
      var slots := new Video[|local|](k requires 0 <= k < |local| => local[k]);
      slots[i], slots[j] := slots[j], slots[i];
      r := slots[..];
    } else {
      r := local;
    }
  }

  /** Swapping the same two slots again restores the list. */
  lemma SwapTwiceRestores(s: seq<Video>, i: nat, j: nat)
    ensures SwapInRange(SwapInRange(s, i, j), i, j) == s
  {
  }

  /** A slot of a JavaScript array: a video, or `undefined` (which is also what a slot past
      the end, or a hole, reads as). */
  datatype Slot = Filled(video: Video) | Undefined

  function Lift(s: seq<Video>): (r: seq<Slot>)
    ensures |r| == |s| && forall k :: 0 <= k < |s| ==> r[k] == Filled(s[k])
  {
    seq(|s|, k requires 0 <= k < |s| => Filled(s[k]))
  }

  function ReadSlot(s: seq<Slot>, i: nat): Slot {
    if i < |s| then s[i] else Undefined
  }

  /** `a[i] = x`: past the end the array grows, the new slots in between reading as
      `undefined`. */
  function WriteSlot(s: seq<Slot>, i: nat, x: Slot): (r: seq<Slot>)
    ensures |r| == if i < |s| then |s| else i + 1
    ensures r[i] == x && forall k :: 0 <= k < |s| && k != i ==> r[k] == s[k]
    ensures forall k :: |s| <= k < |r| && k != i ==> r[k] == Undefined
  {
    if i < |s| then s[i := x] else s + seq(i - |s|, _ => Undefined) + [x]
  }

  /** The local swap as written, `[a[i], a[j]] = [a[j], a[i]]` on a copy of the category's
      list, with the indices taken from the database's ordering. */
  function JsSwap(s: seq<Video>, i: nat, j: nat): seq<Slot> {
    var a := Lift(s);
    var x := ReadSlot(a, j);
    var y := ReadSlot(a, i);
    WriteSlot(WriteSlot(a, i, x), j, y)
  }

  /** When both indices are inside the local list the swap as written and the corrected
      swap agree. */
  lemma JsSwapInRange(s: seq<Video>, i: nat, j: nat)
    requires i < |s| && j < |s|
    ensures JsSwap(s, i, j) == Lift(SwapInRange(s, i, j))
  {
  }

  /** The list the database returns for the category can be longer than the local one
      (another session featured a video since this one fetched). Moving the last local entry
      down then leaves the local list with an `undefined` entry in front, where the
      corrected swap leaves it as it is. */
  lemma MoveWithShorterLocalList(a: Video, rowA: FeaturedRow, rowX: FeaturedRow)
    requires rowA.video_id == a.id && rowX.video_id != a.id
    ensures MovePlan(Ok([rowA, rowX]), a.id, false).SwapWith?
    ensures MovePlan(Ok([rowA, rowX]), a.id, false).index == 0
    ensures MovePlan(Ok([rowA, rowX]), a.id, false).other == 1
    ensures JsSwap([a], 0, 1) == [Undefined, Filled(a)]
    ensures SwapInRange([a], 0, 1) == [a]
  {
    assert FindRowIndex([rowA, rowX], a.id) == Some(0);
  }

  // ---------------------------------------------------------------------------------

  class Store {
    var videos: seq<Video>
    var featuredVideos: map<Category, seq<Video>>
    var isLoading: bool
    var error: Option<string>

    /** Every category has a list. */
    ghost predicate Valid()
      reads this
    {
      forall c: Category :: c in featuredVideos
    }

    constructor()
      ensures Valid() && videos == [] && featuredVideos == EmptyBuckets()
      ensures !isLoading && error == None
    {
      videos := [];
      featuredVideos := EmptyBuckets();
      isLoading := false;
      error := None;
    }

    /** `getFeaturedVideos`: the list of a category, or `[]` for a key that names none. */
    function GetFeaturedVideos(key: string): (r: seq<Video>)
      reads this
      ensures ParseCategory(key).None? ==> r == []
      ensures ParseCategory(key).Some? && ParseCategory(key).value in featuredVideos ==>
                r == featuredVideos[ParseCategory(key).value]
    {
      match ParseCategory(key)
      case None => []
      case Some(c) => if c in featuredVideos then featuredVideos[c] else []
    }

    /** Reads both tables, joins each featured row to its video and publishes the sorted
        categories; a failed read keeps the old lists. */
    method FetchVideos(videosReply: Reply<seq<VideoRow>>, featuredReply: Reply<seq<FeaturedRow>>)
      requires Valid()
      modifies this
      ensures Valid() && !isLoading
      ensures FetchOutcome(videosReply, featuredReply).Ok? ==>
        && videos == FetchOutcome(videosReply, featuredReply).value.videos
        && featuredVideos == FetchOutcome(videosReply, featuredReply).value.featured
        && error == None
      ensures FetchOutcome(videosReply, featuredReply).Err? ==>
        && videos == old(videos) && featuredVideos == old(featuredVideos)
        && error == Some(ErrorText(FetchOutcome(videosReply, featuredReply).failure, FetchFallback))
    {
      isLoading, error := true, None;
      if videosReply.Err? {
        isLoading, error := false, Some(ErrorText(videosReply.failure, FetchFallback));
        return;
      }
      var processed := ProcessAll(videosReply.value);
      if featuredReply.Err? {
        isLoading, error := false, Some(ErrorText(featuredReply.failure, FetchFallback));
        return;
      }
      var rows := featuredReply.value;
      var buckets := EmptyBuckets();
      if |processed| > 0 {
        var blocked;
        buckets, blocked := JoinFeatured(processed, rows);
        if blocked {
          isLoading, error := false, Some(PushTypeError.message);
          return;
        }
        buckets := SortEach(buckets);
      } else {
        EmptyJoinSorted(rows);
      }
      FetchedSnapshot(videosReply.value, rows, buckets);
      videos, featuredVideos, isLoading, error := processed, buckets, false, None;
    }

    /** Inserts the video and appends the row the database returns; a failure is recorded
        and rethrown. A video without an id is first given `freshId`. */
    method AddVideo(video: Video, freshId: string, insertReply: Reply<VideoRow>)
      returns (stamped: Video, writes: seq<Write>, thrown: Option<Failure>)
      requires Valid()
      modifies this
      ensures Valid() && !isLoading && featuredVideos == old(featuredVideos)
      ensures stamped == if video.id == "" then video.(id := freshId) else video
      ensures writes == [InsertVideoRow(NewVideoPayload(video))]
      ensures insertReply.Ok? ==>
        videos == old(videos) + [Inserted(insertReply.value)] && error == None && thrown == None
      ensures insertReply.Err? ==>
        && videos == old(videos) && error == Some(ErrorText(insertReply.failure, AddFallback))
        && thrown == Some(insertReply.failure)
    {
      isLoading, error := true, None;
      stamped := video;
      if stamped.id == "" {
        stamped := stamped.(id := freshId);
      }
      writes := [InsertVideoRow(NewVideoPayload(stamped))];
      match insertReply
      case Err(f) =>
        isLoading, error := false, Some(ErrorText(f, AddFallback));
        thrown := Some(f);
      case Ok(row) =>
        videos, isLoading := videos + [Inserted(row)], false;
        thrown := None;
    }

    /** Updates the row and replaces every local entry with that id; the featured copies are
        not touched, and a failure is recorded but not rethrown. */
    method UpdateVideo(id: string, updated: Video, updateReply: Reply<()>) returns (writes: seq<Write>)
      requires Valid()
      modifies this
      ensures Valid() && !isLoading && featuredVideos == old(featuredVideos)
      ensures writes == [UpdateVideoRow(id, Patch(updated))]
      ensures updateReply.Ok? ==> videos == ReplaceById(old(videos), id, Refreshed(updated)) && error == None
      ensures updateReply.Err? ==>
        videos == old(videos) && error == Some(ErrorText(updateReply.failure, UpdateFallback))
    {
      isLoading, error := true, None;
      writes := [UpdateVideoRow(id, Patch(updated))];
      match updateReply
      case Err(f) =>
        isLoading, error := false, Some(ErrorText(f, UpdateFallback));
      case Ok(_) =>
        videos, isLoading := ReplaceById(videos, id, Refreshed(updated)), false;
    }

    /** Deletes the video's featured rows, then the video, then drops it from every local
        list; the first failed delete stops the action with the lists untouched. */
    method RemoveVideo(id: string, featuredDelete: Reply<()>, videoDelete: Reply<()>) returns (writes: seq<Write>)
      requires Valid()
      modifies this
      ensures Valid() && !isLoading
      ensures featuredDelete.Err? ==>
        && writes == [DeleteFeaturedOf(id)]
        && videos == old(videos) && featuredVideos == old(featuredVideos)
        && error == Some(ErrorText(featuredDelete.failure, RemoveFallback))
      ensures featuredDelete.Ok? ==> writes == [DeleteFeaturedOf(id), DeleteVideoRow(id)]
      ensures featuredDelete.Ok? && videoDelete.Err? ==>
        && videos == old(videos) && featuredVideos == old(featuredVideos)
        && error == Some(ErrorText(videoDelete.failure, RemoveFallback))
      ensures featuredDelete.Ok? && videoDelete.Ok? ==>
        && videos == Without(old(videos), id)
        && featuredVideos == RemovedEverywhere(old(featuredVideos), id)
        && error == None
    {
      isLoading, error := true, None;
      writes := [DeleteFeaturedOf(id)];
      if featuredDelete.Err? {
        isLoading, error := false, Some(ErrorText(featuredDelete.failure, RemoveFallback));
        return;
      }
      writes := writes + [DeleteVideoRow(id)];
      if videoDelete.Err? {
        isLoading, error := false, Some(ErrorText(videoDelete.failure, RemoveFallback));
        return;
      }
      videos, featuredVideos, isLoading := Without(videos, id), RemovedEverywhere(featuredVideos, id), false;
    }

    /** Features a video at the end of a category, or, when the pair is already featured,
        unfeatures it instead. The row is inserted before the local list is consulted, so a
        video missing locally ends in an error after the insert. */
    method FeatureVideo(videoId: string, category: Category, existingReply: Reply<seq<FeaturedRow>>,
                        deleteReply: Reply<()>, topReply: Reply<seq<FeaturedRow>>, insertReply: Reply<()>)
      returns (writes: seq<Write>)
      requires Valid()
      modifies this
      ensures Valid() && !isLoading && videos == old(videos)
      ensures existingReply.Err? ==>
        && writes == [] && featuredVideos == old(featuredVideos)
        && error == Some(ErrorText(existingReply.failure, FeatureFallback))
      ensures existingReply.Ok? && |existingReply.value| > 0 ==>
        && writes == [DeleteFeatured(videoId, category)]
        && (deleteReply.Ok? ==> featuredVideos == Unfeatured(old(featuredVideos), category, videoId) && error == None)
        && (deleteReply.Err? ==> featuredVideos == old(featuredVideos)
                                 && error == Some(ErrorText(deleteReply.failure, FeatureFallback)))
      ensures existingReply.Ok? && |existingReply.value| == 0 && topReply.Err? ==>
        && writes == [] && featuredVideos == old(featuredVideos)
        && error == Some(ErrorText(topReply.failure, FeatureFallback))
      ensures existingReply.Ok? && |existingReply.value| == 0 && topReply.Ok? ==>
        && writes == [InsertFeatured(videoId, category, PositionAfter(topReply.value))]
        && (insertReply.Err? ==> featuredVideos == old(featuredVideos)
                                 && error == Some(ErrorText(insertReply.failure, FeatureFallback)))
        && (insertReply.Ok? && FindById(old(videos), videoId).None? ==>
              featuredVideos == old(featuredVideos) && error == Some("Video not found in local state"))
        && (insertReply.Ok? && FindById(old(videos), videoId).Some? ==>
              && featuredVideos == old(featuredVideos)[category := old(featuredVideos)[category] + [FindById(old(videos), videoId).value]]
              && error == None)
    {
      isLoading, error := true, None;
      writes := [];
      if existingReply.Err? {
        isLoading, error := false, Some(ErrorText(existingReply.failure, FeatureFallback));
        return;
      }
      if |existingReply.value| > 0 {
        writes := [DeleteFeatured(videoId, category)];
        if deleteReply.Err? {
          isLoading, error := false, Some(ErrorText(deleteReply.failure, FeatureFallback));
          return;
        }
        featuredVideos, isLoading := Unfeatured(featuredVideos, category, videoId), false;
        return;
      }
      if topReply.Err? {
        isLoading, error := false, Some(ErrorText(topReply.failure, FeatureFallback));
        return;
      }
      var position := PositionAfter(topReply.value);
      writes := [InsertFeatured(videoId, category, position)];
      if insertReply.Err? {
        isLoading, error := false, Some(ErrorText(insertReply.failure, FeatureFallback));
        return;
      }
      var found := FindById(videos, videoId);
      if found.None? {
        isLoading, error := false, Some(ErrorText(Thrown("Video not found in local state"), FeatureFallback));
        return;
      }
      featuredVideos, isLoading := featuredVideos[category := featuredVideos[category] + [found.value]], false;
    }

    /** Deletes the pair's row and filters the video out of that category. */
    method UnfeatureVideo(videoId: string, category: Category, deleteReply: Reply<()>) returns (writes: seq<Write>)
      requires Valid()
      modifies this
      ensures Valid() && !isLoading && videos == old(videos)
      ensures writes == [DeleteFeatured(videoId, category)]
      ensures deleteReply.Ok? ==> featuredVideos == Unfeatured(old(featuredVideos), category, videoId) && error == None
      ensures deleteReply.Err? ==>
        featuredVideos == old(featuredVideos) && error == Some(ErrorText(deleteReply.failure, UnfeatureFallback))
    {
      isLoading, error := true, None;
      writes := [DeleteFeatured(videoId, category)];
      if deleteReply.Err? {
        isLoading, error := false, Some(ErrorText(deleteReply.failure, UnfeatureFallback));
        return;
      }
      featuredVideos, isLoading := Unfeatured(featuredVideos, category, videoId), false;
    }

    /** Moves an entry one step up or down: the two rows trade positions in the database and
        the local list trades the slots at the rows' indices (as returned by the database),
        when both slots exist. */
    method MoveFeaturedVideo(videoId: string, category: Category, up: bool,
                             listReply: Reply<seq<FeaturedRow>>, upsertReply: Reply<()>)
      returns (writes: seq<Write>)
      requires Valid()
      modifies this
      ensures Valid() && !isLoading && videos == old(videos)
      ensures MovePlan(listReply, videoId, up).MoveFails? ==>
        && writes == [] && featuredVideos == old(featuredVideos)
        && error == Some(ErrorText(MovePlan(listReply, videoId, up).failure, MoveFallback))
      ensures MovePlan(listReply, videoId, up).AtEdge? ==>
        writes == [] && featuredVideos == old(featuredVideos) && error == None
      ensures MovePlan(listReply, videoId, up).SwapWith? ==>
        var step := MovePlan(listReply, videoId, up);
        && writes == [UpsertPositions(step.updates)]
        && (upsertReply.Err? ==> featuredVideos == old(featuredVideos)
                                 && error == Some(ErrorText(upsertReply.failure, MoveFallback)))
        && (upsertReply.Ok? ==>
              && featuredVideos == old(featuredVideos)[category := SwapInRange(old(featuredVideos)[category], step.index, step.other)]
              && error == None)
        && (upsertReply.Ok? && step.index < |old(featuredVideos)[category]| && step.other < |old(featuredVideos)[category]| ==>
              Lift(featuredVideos[category]) == JsSwap(old(featuredVideos)[category], step.index, step.other))
    {
      isLoading, error := true, None;
      writes := [];
      var step := MovePlan(listReply, videoId, up);
      match step
      case MoveFails(f) =>
        isLoading, error := false, Some(ErrorText(f, MoveFallback));
      case AtEdge =>
        isLoading := false;
      case SwapWith(i, j, updates) =>
        writes := [UpsertPositions(updates)];
        if upsertReply.Err? {
          isLoading, error := false, Some(ErrorText(upsertReply.failure, MoveFallback));
          return;
        }
        var swapped := SwapSlots(featuredVideos[category], i, j);
        if i < |featuredVideos[category]| && j < |featuredVideos[category]| {
          JsSwapInRange(featuredVideos[category], i, j);
        }
        featuredVideos, isLoading := featuredVideos[category := swapped], false;
    }
  }
}
