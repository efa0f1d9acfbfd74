/** The home page: a banner over the movie catalog, a trending row of movie covers, and
    one row of video cards per section, each showing exactly the videos an administrator
    featured in that section's category. */
module HomePage {
  import opened JsText
  import opened Catalog
  import YoutubeStore
  import FeaturedBanner

  /** A movie of the movie catalog, as the banner shows it. */
  type Movie = FeaturedBanner.Movie

  datatype Section = Section(id: string, name: string)

  /** The page's sections, in order. */
  const Sections: seq<Section> := [
    Section("trending", "Trending Now"),
    Section("popular", "Popular on CelFlicks"),
    Section("new", "Emotional"),
    Section("action", "Action & Adventure"),
    Section("comedy", "Comedy Picks"),
    Section("sci-fi", "Sci-Fi Thrills")]

  /** The store key a section reads: the `popular` section shows the `trending` category. */
  function CategoryToUse(sectionId: string): (r: string)
    ensures sectionId != "popular" ==> r == sectionId
  {
    if sectionId == "popular" then "trending" else sectionId
  }

  /** The videos of a section's row: whatever the store holds for the key, and nothing
      else. */
  function GetYouTubeVideos(store: YoutubeStore.Store, sectionId: string): seq<Video>
    reads store
  {
    store.GetFeaturedVideos(CategoryToUse(sectionId))
  }

  /** The sections shown as rows of video cards: every section after the first. */
  function VideoSections(): (r: seq<Section>)
    ensures |r| == 5 && r[0] == Sections[1]
  {
    Sections[1..]
  }

  /** The category whose featured list a section shows, if any. */
  function SectionCategory(sectionId: string): Option<Category> {
    ParseCategory(CategoryToUse(sectionId))
  }

  /** Each video row shows exactly its category's featured list: the `popular` row shows
      `trending`'s, the `sci-fi` row names no category and so always shows an empty
      (hidden) row. */
  lemma RowsShowFeaturedLists(store: YoutubeStore.Store)
    requires store.Valid()
    ensures GetYouTubeVideos(store, "popular") == store.featuredVideos[Trending]
    ensures GetYouTubeVideos(store, "new") == store.featuredVideos[New]
    ensures GetYouTubeVideos(store, "action") == store.featuredVideos[Action]
    ensures GetYouTubeVideos(store, "comedy") == store.featuredVideos[Comedy]
    ensures GetYouTubeVideos(store, "sci-fi") == []
  {
    assert "sci-fi"[0] == 's';
  }

  /** Different rows read different categories, so a video shows up in two rows only when it
      was featured in both categories; the documentary, music and original categories
      are never shown on this page. */
  lemma RowsReadDistinctCategories(a: nat, b: nat)
    requires a < b < |VideoSections()|
    ensures SectionCategory(VideoSections()[a].id).Some? ==>
              SectionCategory(VideoSections()[a].id) != SectionCategory(VideoSections()[b].id)
    ensures SectionCategory(VideoSections()[a].id) !in {Some(Documentary), Some(Music), Some(Original)}
  {
    var s := VideoSections();
    assert s[0].id == "popular" && s[1].id == "new" && s[2].id == "action" && s[3].id == "comedy" && s[4].id == "sci-fi";
    assert "sci-fi"[0] == 's';
  }

  /** The trending row: the first ten movies, or all of them when there are fewer. */
  function TrendingMovies(movies: seq<Movie>): (r: seq<Movie>)
    ensures |r| == if |movies| < 10 then |movies| else 10
    ensures r <= movies
  {
    if |movies| < 10 then movies else movies[..10]
  }

  /** `movies.find(movie => movie.id === id)`. */
  function FindMovie(movies: seq<Movie>, id: string): Option<Movie> {
    if |movies| == 0 then None
    else if movies[0].id == id then Some(movies[0])
    else FindMovie(movies[1..], id)
  }

  /** The search yields the first movie with the id, and nothing exactly when no movie has
      it. */
  lemma {:induction false} FindMovieFirst(movies: seq<Movie>, id: string)
    ensures FindMovie(movies, id).None? <==> forall i :: 0 <= i < |movies| ==> movies[i].id != id
    ensures FindMovie(movies, id).Some? ==>
      exists k :: 0 <= k < |movies| && movies[k] == FindMovie(movies, id).value && movies[k].id == id
                  && forall j :: 0 <= j < k ==> movies[j].id != id
  {
    if |movies| > 0 && movies[0].id != id {
      FindMovieFirst(movies[1..], id);
      if FindMovie(movies, id).Some? {
        var k :| 0 <= k < |movies[1..]| && movies[1..][k] == FindMovie(movies, id).value && movies[1..][k].id == id
                 && forall j :: 0 <= j < k ==> movies[1..][j].id != id;
        assert movies[k + 1] == movies[1..][k];
        forall j | 0 <= j < k + 1 ensures movies[j].id != id {
          if j > 0 { assert movies[j] == movies[1..][j - 1]; }
        }
      } else {
        forall i | 0 <= i < |movies| ensures movies[i].id != id {
          if i > 0 { assert movies[i] == movies[1..][i - 1]; }
        }
      }
    }
  }

  class Page {
    var activeMovie: Option<Movie>

    constructor()
      ensures activeMovie == None
    {
      activeMovie := None;
    }

    /** Playing from the banner opens the series modal on the movie with that id, or
        closes it when no movie has the id. */
    method HandlePlayFeatured(movies: seq<Movie>, id: string)
      modifies this
      ensures activeMovie == FindMovie(movies, id)
      ensures activeMovie.Some? ==> activeMovie.value in movies && activeMovie.value.id == id
      ensures activeMovie.None? <==> forall i :: 0 <= i < |movies| ==> movies[i].id != id
    {
      FindMovieFirst(movies, id);
      activeMovie := FindMovie(movies, id);
    }

    method CloseModal()
      modifies this
      ensures activeMovie == None
    {
      activeMovie := None;
    }
  }
}
