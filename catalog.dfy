/** The catalog's values: the video record the components pass around, the rows of the
    `videos` and `featured_videos` tables, and the seven featured categories. */
module Catalog {
  import opened JsText

  /** The video record. Optional text fields are `""` when absent, and `tags` is `[]` when
      absent. A record carries the URL and the YouTube id twice, once under the component
      name (`videoUrl`, `youtubeId`) and once under the column name (`video_url`,
      `youtube_id`); `featuredPosition` is set only on the copies held in a category. */
  datatype Video = Video(
    id: string,
    title: string,
    videoUrl: string,
    video_url: string,
    platform: string,
    youtubeId: string,
    youtube_id: string,
    description: string,
    tags: seq<string>,
    thumbnail: string,
    featuredPosition: Option<int>)

  /** A row of the `videos` table. */
  datatype VideoRow = VideoRow(
    id: string,
    title: string,
    video_url: string,
    platform: string,
    youtube_id: string,
    description: string,
    tags: seq<string>,
    thumbnail: string)

  /** A row of `featured_videos`: which video is featured where, at which position.
      The category is whatever text the row holds (`""` for null) and the position may be
      null. */
  datatype FeaturedRow = FeaturedRow(id: string, video_id: string, category: string, position: Option<int>)

  datatype Category = Trending | New | Action | Comedy | Documentary | Music | Original

  /** The key under which a category is stored and sent. */
  function Key(c: Category): string {
    match c
    case Trending => "trending"
    case New => "new"
    case Action => "action"
    case Comedy => "comedy"
    case Documentary => "documentary"
    case Music => "music"
    case Original => "original"
  }

  const Categories: set<Category> := {Trending, New, Action, Comedy, Documentary, Music, Original}

  lemma CategoriesComplete()
    ensures forall c: Category :: c in Categories
  {
    forall c: Category ensures c in Categories {
      match c
      case Trending =>
      case New =>
      case Action =>
      case Comedy =>
      case Documentary =>
      case Music =>
      case Original =>
    }
  }

  /** A category's place in the order the store's object literal lists the keys. */
  function Ordinal(c: Category): (n: nat)
    ensures n < 7
  {
    match c
    case Trending => 0
    case New => 1
    case Action => 2
    case Comedy => 3
    case Documentary => 4
    case Music => 5
    case Original => 6
  }

  /** The category listed at place `k`. */
  function CategoryAt(k: nat): (c: Category)
    requires k < 7
    ensures Ordinal(c) == k
  {
    if k == 0 then Trending
    else if k == 1 then New
    else if k == 2 then Action
    else if k == 3 then Comedy
    else if k == 4 then Documentary
    else if k == 5 then Music
    else Original
  }

  lemma CategoryAtOrdinal(c: Category)
    ensures CategoryAt(Ordinal(c)) == c
  {
  }

  /** The category a key names, if any. */
  function ParseCategory(s: string): (r: Option<Category>)
    ensures r.Some? ==> Key(r.value) == s
    ensures r.None? ==> forall c: Category :: Key(c) != s
  {
    if s == "trending" then Some(Trending)
    else if s == "new" then Some(New)
    else if s == "action" then Some(Action)
    else if s == "comedy" then Some(Comedy)
    else if s == "documentary" then Some(Documentary)
    else if s == "music" then Some(Music)
    else if s == "original" then Some(Original)
    else None
  }

  /** Every category's key names that category again. */
  lemma KeyRoundTrip(c: Category)
    ensures ParseCategory(Key(c)) == Some(c)
  {
  }

  /** The properties every plain JavaScript object inherits from `Object.prototype`. Looking
      one of them up in an object literal yields a function (or the prototype itself), never
      `undefined`. */
  predicate IsPrototypeKey(s: string) {
    s in ["constructor", "__defineGetter__", "__defineSetter__", "hasOwnProperty",
          "__lookupGetter__", "__lookupSetter__", "isPrototypeOf", "propertyIsEnumerable",
          "toString", "valueOf", "__proto__", "toLocaleString"]
  }

  /** `videos.find(v => v.id === id)`. */
  function FindById(videos: seq<Video>, id: string): Option<Video> {
    if |videos| == 0 then None
    else if videos[0].id == id then Some(videos[0])
    else FindById(videos[1..], id)
  }

  /** The search finds the first video with the id, and finds nothing exactly when no video
      has it. */
  lemma {:induction false} FindByIdFirst(videos: seq<Video>, id: string)
    ensures FindById(videos, id).None? <==> forall i :: 0 <= i < |videos| ==> videos[i].id != id
    ensures FindById(videos, id).Some? ==>
      exists k :: 0 <= k < |videos| && videos[k] == FindById(videos, id).value && videos[k].id == id
                  && forall j :: 0 <= j < k ==> videos[j].id != id
  {
    if |videos| > 0 && videos[0].id != id {
      FindByIdFirst(videos[1..], id);
      if FindById(videos, id).Some? {
        var k :| 0 <= k < |videos[1..]| && videos[1..][k] == FindById(videos, id).value && videos[1..][k].id == id
                 && forall j :: 0 <= j < k ==> videos[1..][j].id != id;
        assert videos[k + 1] == videos[1..][k];
        forall j | 0 <= j < k + 1 ensures videos[j].id != id {
          if j > 0 { assert videos[j] == videos[1..][j - 1]; }
        }
      } else {
        forall i | 0 <= i < |videos| ensures videos[i].id != id {
          if i > 0 { assert videos[i] == videos[1..][i - 1]; }
        }
      }
    }
  }

  /** `videos.filter(v => v.id !== id)`. */
  function Without(videos: seq<Video>, id: string): (r: seq<Video>)
    ensures |r| <= |videos|
    ensures forall v :: v in r <==> v in videos && v.id != id
  {
    if |videos| == 0 then []
    else if videos[0].id == id then Without(videos[1..], id)
    else [videos[0]] + Without(videos[1..], id)
  }

  /** Filtering works element by element: it distributes over concatenation, so the kept
      videos stay in their relative order. */
  lemma {:induction false} WithoutConcat(a: seq<Video>, b: seq<Video>, id: string)
    ensures Without(a + b, id) == Without(a, id) + Without(b, id)
  {
    if |a| == 0 {
      assert a + b == b;
    } else {
      assert (a + b)[1..] == a[1..] + b;
      WithoutConcat(a[1..], b, id);
    }
  }

  /** A list without the id is left as it is, so filtering twice is filtering once. */
  lemma {:induction false} WithoutAbsent(videos: seq<Video>, id: string)
    requires forall i :: 0 <= i < |videos| ==> videos[i].id != id
    ensures Without(videos, id) == videos
  {
    if |videos| > 0 {
      WithoutAbsent(videos[1..], id);
    }
  }

  lemma WithoutIdempotent(videos: seq<Video>, id: string)
    ensures Without(Without(videos, id), id) == Without(videos, id)
  {
    var w := Without(videos, id);
    assert forall i :: 0 <= i < |w| ==> w[i].id != id by {
      forall i | 0 <= i < |w| ensures w[i].id != id {
        assert w[i] in w;
      }
    }
    WithoutAbsent(w, id);
  }

  /** The key a featured copy is sorted by: `featuredPosition || 0`. */
  function SortKey(v: Video): int {
    match v.featuredPosition
    case None => 0
    case Some(p) => p
  }

  predicate SortedByPosition(s: seq<Video>) {
    forall i, j :: 0 <= i < j < |s| ==> SortKey(s[i]) <= SortKey(s[j])
  }

  /** Inserts `v` in front of the first element whose key is not smaller. */
  function InsertByPosition(v: Video, s: seq<Video>): seq<Video> {
    if |s| == 0 || SortKey(v) <= SortKey(s[0]) then [v] + s
    else [s[0]] + InsertByPosition(v, s[1..])
  }

  /** `Array.prototype.sort` with the comparator `(a.featuredPosition || 0) -
      (b.featuredPosition || 0)`, written as an insertion sort that keeps equal keys in
      their original order. */
  function SortByPosition(s: seq<Video>): seq<Video> {
    if |s| == 0 then [] else InsertByPosition(s[0], SortByPosition(s[1..]))
  }

  /** A lower bound of `v` and of every element of `s` bounds the elements of any
      rearrangement `t` of `s` plus `v`. */
  lemma LowerBoundKept(b: int, v: Video, s: seq<Video>, t: seq<Video>)
    requires b <= SortKey(v) && forall i :: 0 <= i < |s| ==> b <= SortKey(s[i])
    requires multiset(t) == multiset(s) + multiset{v}
    ensures forall i :: 0 <= i < |t| ==> b <= SortKey(t[i])
  {
    forall i | 0 <= i < |t| ensures b <= SortKey(t[i]) {
      assert t[i] in multiset(t);
      if t[i] != v {
        assert t[i] in multiset(s);
        var k :| 0 <= k < |s| && s[k] == t[i];
      }
    }
  }

  lemma PrependSorted(x: Video, t: seq<Video>)
    requires SortedByPosition(t) && forall i :: 0 <= i < |t| ==> SortKey(x) <= SortKey(t[i])
    ensures SortedByPosition([x] + t)
  {
    forall i, j | 0 <= i < j < |[x] + t| ensures SortKey(([x] + t)[i]) <= SortKey(([x] + t)[j]) {
      assert ([x] + t)[j] == t[j - 1];
      if i > 0 { assert ([x] + t)[i] == t[i - 1]; }
    }
  }

  /** Inserting into a sorted list keeps it sorted and adds exactly the one element. */
  lemma {:induction false} InsertByPositionCorrect(v: Video, s: seq<Video>)
    requires SortedByPosition(s)
    ensures SortedByPosition(InsertByPosition(v, s))
    ensures multiset(InsertByPosition(v, s)) == multiset(s) + multiset{v}
  {
    if |s| == 0 || SortKey(v) <= SortKey(s[0]) {
      PrependSorted(v, s);
    } else {
      var t := InsertByPosition(v, s[1..]);
      InsertByPositionCorrect(v, s[1..]);
      assert s == [s[0]] + s[1..];
      LowerBoundKept(SortKey(s[0]), v, s[1..], t);
      PrependSorted(s[0], t);
    }
  }

  /** The sort orders by ascending position and only rearranges: it is a permutation. */
  lemma {:induction false} SortByPositionCorrect(s: seq<Video>)
    ensures SortedByPosition(SortByPosition(s))
    ensures multiset(SortByPosition(s)) == multiset(s)
  {
    if |s| > 0 {
      SortByPositionCorrect(s[1..]);
      InsertByPositionCorrect(s[0], SortByPosition(s[1..]));
      assert s == [s[0]] + s[1..];
    }
  }
}
