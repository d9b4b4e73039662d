/** Client-side use of the receiver: sequences of calls a page or a modal
    makes, and what they are guaranteed to see. */
module Scenarios {
  import opened Js
  import opened TmdbUrls
  import opened Normalise
  import opened MoviePageReceiver

  /** Three calls of one popular cursor ask for pages 1, 2 and 3, in order. */
  method ThreePopularCalls(server: string -> Response<RawPage>)
    returns (first: Result<MoviePage>, second: Result<MoviePage>, third: Result<MoviePage>)
    ensures first == PageOutcome(server(PopularUrl(1)))
    ensures second == PageOutcome(server(PopularUrl(2)))
    ensures third == PageOutcome(server(PopularUrl(3)))
  {
    var f := GetFetchPopularMoviePage();
    first := f.Fetch(server);
    second := f.Fetch(server);
    third := f.Fetch(server);
  }

  /** A failed call still uses up its page: after a rejected first call the
      next call asks for page 2, not page 1 again. */
  method RetryAfterFailure(movieName: string, server: string -> Response<RawPage>)
    returns (first: Result<MoviePage>, retry: Result<MoviePage>)
    requires server(SearchUrl(movieName, 1)) == Unreachable
    ensures first == Err(FetchFailed)
    ensures retry == PageOutcome(server(SearchUrl(movieName, 2)))
  {
    var f := GetFetchSearchMoviePage(movieName);
    first := f.Fetch(server);
    retry := f.Fetch(server);
  }

  /** Cursors do not share counters: a search cursor created after a
      popular cursor has advanced still starts at page 1, a second popular
      cursor also starts at page 1, and the first popular cursor carries on
      from where it was. */
  method IndependentCursors(movieName: string, server: string -> Response<RawPage>)
    returns (search: Result<MoviePage>, otherPopular: Result<MoviePage>, popularAgain: Result<MoviePage>)
    ensures search == PageOutcome(server(SearchUrl(movieName, 1)))
    ensures otherPopular == PageOutcome(server(PopularUrl(1)))
    ensures popularAgain == PageOutcome(server(PopularUrl(3)))
  {
    var popular := GetFetchPopularMoviePage();
    var _ := popular.Fetch(server);
    var _ := popular.Fetch(server);
    var s := GetFetchSearchMoviePage(movieName);
    search := s.Fetch(server);
    var p2 := GetFetchPopularMoviePage();
    otherPopular := p2.Fetch(server);
    popularAgain := popular.Fetch(server);
  }

  /** A catalog of a single page: the first call resolves to one summary per
      result and reports the last page. */
  method SinglePageCatalog(results: seq<RawMovie>) returns (r: Result<MoviePage>)
    ensures r.Ok? && r.value.isLastPage && |r.value.movieInfos| == |results|
  {
    var f := GetFetchPopularMoviePage();
    r := f.Fetch((url: string) => Json(RawPage(Present(results), Present(1))));
  }

  /** With two pages, the call that fetches page 2, which is the last page,
      still reports `isLastPage` false, and so does page 1; only a page
      count of 1 is ever reported as last. */
  method TwoPageCatalog(results: seq<RawMovie>) returns (first: Result<MoviePage>, second: Result<MoviePage>)
    ensures first.Ok? && !first.value.isLastPage
    ensures second.Ok? && !second.value.isLastPage
  {
    var f := GetFetchPopularMoviePage();
    var twoPages := (url: string) => Json(RawPage(Present(results), Present(2)));
    first := f.Fetch(twoPages);
    second := f.Fetch(twoPages);
  }

  /** An error payload (no `results`) rejects the call with a TypeError, and
      the counter has still advanced. */
  method ErrorPayload(movieName: string, server: string -> Response<RawPage>)
    returns (first: Result<MoviePage>, next: Result<MoviePage>)
    requires server(SearchUrl(movieName, 1)).Json? && server(SearchUrl(movieName, 1)).body.results.Undefined?
    ensures first == Err(TypeError)
    ensures next == PageOutcome(server(SearchUrl(movieName, 2)))
  {
    var f := GetFetchSearchMoviePage(movieName);
    first := f.Fetch(server);
    next := f.Fetch(server);
  }

  /** A detail whose body lists no genres: the poster path, which starts with
      a slash, is appended after the base's own closing slash, and the empty
      genre list stays empty rather than turning into the fallback. */
  lemma DetailWithEmptyGenres(server: string -> Response<RawDetail>)
    requires server(DetailUrl("99")) ==
      Json(RawDetail(Present("X"), Present("/p.jpg"), Present([]), Present(7.5), Present("d")))
    ensures FetchMovieDetail("99", server) ==
      Ok(MovieDetail("https://image.tmdb.org/t/p/original//p.jpg", Present("X"), [], Present(7.5), Present("d")))
  {
    var d := MovieDetailOf(server(DetailUrl("99")).body);
    assert d.genres == [];
    assert d.posterSrc == "https://image.tmdb.org/t/p/original//p.jpg";
  }

  /** A detail body without `genres` or `overview`: the fallback genre list,
      and no description. */
  lemma DetailWithoutGenres(server: string -> Response<RawDetail>)
    requires server(DetailUrl("7")) ==
      Json(RawDetail(Present("Y"), Present("/q.jpg"), Undefined, Present(6.0), Undefined))
    ensures FetchMovieDetail("7", server) ==
      Ok(MovieDetail("https://image.tmdb.org/t/p/original//q.jpg", Present("Y"), [Present(NoGenre)], Present(6.0), Undefined))
  {
    var d := MovieDetailOf(server(DetailUrl("7")).body);
    assert d.posterSrc == "https://image.tmdb.org/t/p/original//q.jpg";
  }

  /** A search name is sent as typed: a space and an `&` appear in the URL
      unescaped, so the `&` starts a query parameter of its own. */
  lemma SearchNameUnescaped()
    ensures SearchUrl("a b&c", 1) == SearchUrlHeader + "a b&c" + SearchUrlMiddle + "1"
  {
  }

  /** A summary whose entry has no poster path shows the text "undefined"
      after the thumbnail base. */
  lemma SummaryWithoutPoster(id: Field<string>, title: Field<string>, rating: Field<Rating>)
    ensures MovieInfosInPage([RawMovie(id, title, Undefined, rating)])[0].imgSrc ==
      "https://image.tmdb.org/t/p/w220_and_h330_face/undefined"
  {
  }
}
