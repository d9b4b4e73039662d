/** The page cursors handed out by `getFetchPopularMoviePage` and
    `getFetchSearchMoviePage`, and the single-shot `fetchMovieDetail`.
    The network is a parameter: `server` maps a request URL to what the
    request yields. */
module MoviePageReceiver {
  import opened Js
  import opened TmdbUrls
  import opened Normalise

  /** `#popularPage`: the page number every call compares with the page
      count to decide `isLastPage`. Nothing writes it after initialisation,
      so it is a constant here. */
  const PopularPage: int := 1

  /** What one request yields: the request is rejected (network failure),
      the body is not JSON, or a parsed JSON object. */
  datatype Response<T> = Unreachable | NotJson | Json(body: T)

  /** Why a call's promise is rejected. `TypeError` is the error JavaScript
      raises when `.map` is applied to a missing `results`, which is what an
      error payload from the API (no `results` field) leads to. */
  datatype Failure = FetchFailed | InvalidJson | TypeError

  datatype Result<T> = Ok(value: T) | Err(failure: Failure)

  /** A page envelope, with the fields the receiver reads. */
  datatype RawPage = RawPage(results: Field<seq<RawMovie>>, totalPages: Field<int>)

  /** What one call of a page cursor resolves to. */
  datatype MoviePage = MoviePage(movieInfos: seq<MovieInfo>, isLastPage: bool)

  /** The two query families a cursor can be created for. */
  datatype Query = Popular | Search(movieName: string)

  /** The URL a cursor of the given family sends for the given page. */
  function RequestUrl(query: Query, page: nat): string {
    match query
    case Popular => PopularUrl(page)
    case Search(movieName) => SearchUrl(movieName, page)
  }

  /** A cursor's request URL is read back as the cursor's family, its search
      name unchanged, and the page it was built for. */
  lemma RequestUrlRoundTrip(query: Query, page: nat)
    ensures query.Popular? ==> ParsePopularUrl(RequestUrl(query, page)) == Some(page)
    ensures query.Search? ==> ParseSearchUrl(RequestUrl(query, page)) == Some((query.movieName, page))
  {
    match query
    case Popular => PopularUrlRoundTrip(page);
    case Search(movieName) => SearchUrlRoundTrip(movieName, page);
  }

  /** Two requests coincide only if they are of the same family and for the
      same page: no two cursor calls of any kind on any page ask for the
      same URL unless they agree on both. */
  lemma RequestUrlInjective(q1: Query, a: nat, q2: Query, b: nat)
    ensures RequestUrl(q1, a) == RequestUrl(q2, b) ==> q1 == q2 && a == b
  {
    match (q1, q2)
    case (Popular, Popular) =>
      PopularUrlInjective(a, b);
    case (Popular, Search(m)) =>
      PopularUrlIsNotSearchUrl(a, m, b);
    case (Search(m), Popular) =>
      PopularUrlIsNotSearchUrl(b, m, a);
    case (Search(m1), Search(m2)) =>
      SearchUrlInjective(m1, a, m2, b);
  }

  /** `isLastPage` of one response: the constant `#popularPage` (1) against
      the reported page count. The page the cursor is on plays no part. */
  function IsLastPage(page: RawPage): (last: bool)
    ensures last <==> page.totalPages == Present(1)
  {
    page.totalPages == Present(PopularPage)
  }

  /** Comparing the page count with a fixed 1 agrees with comparing it with
      the cursor's page for every response only when the cursor is on page
      1: on any other page some response is reported wrongly. */
  lemma IsLastPageAgreesWithCursorOnlyOnPageOne(now: nat)
    ensures (forall body: RawPage :: IsLastPage(body) <==> body.totalPages == Present(now as int)) <==> now == 1
  {
    if now != 1 {
      var b := RawPage(Undefined, Present(now as int));
      assert !IsLastPage(b);
    }
  }

  /** What a cursor call resolves to, given what its request yielded: the
      summaries of the page's results and the `isLastPage` flag, or the
      failure the promise is rejected with. */
  function PageOutcome(response: Response<RawPage>): (r: Result<MoviePage>)
    ensures r.Ok? <==> response.Json? && response.body.results.Present?
    ensures response.Unreachable? ==> r == Err(FetchFailed)
    ensures response.NotJson? ==> r == Err(InvalidJson)
    ensures response.Json? && response.body.results.IsNullish() ==> r == Err(TypeError)
    ensures r.Ok? ==>
      && r.value.movieInfos == MovieInfosInPage(response.body.results.value)
      && (r.value.isLastPage <==> response.body.totalPages == Present(1))
  {
    match response
    case Unreachable => Err(FetchFailed)
    case NotJson => Err(InvalidJson)
    case Json(page) =>
      match page.results
      case Present(results) => Ok(MoviePage(MovieInfosInPage(results), IsLastPage(page)))
      case _ => Err(TypeError)
  }

  /** `urls` are the requests of pages 1, 2, ... of the family, in order. */
  ghost predicate RequestedInOrder(query: Query, urls: seq<string>) {
    forall i :: 0 <= i < |urls| ==> urls[i] == RequestUrl(query, i + 1)
  }

  /** One more call extends the history with the next page's request. */
  lemma RequestedInOrderAppend(query: Query, urls: seq<string>)
    requires RequestedInOrder(query, urls)
    ensures RequestedInOrder(query, urls + [RequestUrl(query, |urls| + 1)])
  {
    var next := urls + [RequestUrl(query, |urls| + 1)];
    forall i | 0 <= i < |next|
      ensures next[i] == RequestUrl(query, i + 1)
    {
      if i < |urls| {
        assert next[i] == urls[i];
      }
    }
  }

  /** The closure returned by the two factories: its own page counter
      `nowPage`, and, as a ghost record, the URLs it has requested so far. */
  class PageFetcher {
    const query: Query
    var nowPage: nat
    ghost var requested: seq<string>

    /** The counter is one more than the number of calls made, and the n-th
        call (counting from 1) requested page n of the cursor's family. */
    ghost predicate Valid()
      reads this
    {
      nowPage == |requested| + 1 && RequestedInOrder(query, requested)
    }

    constructor (query: Query)
      ensures Valid()
      ensures this.query == query && nowPage == 1 && requested == []
    {
      this.query := query;
      nowPage := 1;
      requested := [];
    }

    /** One call: build the URL from the counter, advance the counter, then
        hand the request to `server` and normalise what comes back. The
        counter advances whatever the request yields. */
    method Fetch(server: string -> Response<RawPage>) returns (r: Result<MoviePage>)
      requires Valid()
      modifies this
      ensures Valid()
      ensures nowPage == old(nowPage) + 1
      ensures requested == old(requested) + [RequestUrl(query, old(nowPage))]
      ensures r == PageOutcome(server(RequestUrl(query, old(nowPage))))
    {
      var url := RequestUrl(query, nowPage);
      nowPage := nowPage + 1;
      RequestedInOrderAppend(query, requested);
      requested := requested + [url];
      r := PageOutcome(server(url));
    }
  }

  /** No cursor ever requests the same URL twice. */
  lemma NoUrlRequestedTwice(f: PageFetcher)
    requires f.Valid()
    ensures forall i, j :: 0 <= i < j < |f.requested| ==> f.requested[i] != f.requested[j]
  {
    forall i, j | 0 <= i < j < |f.requested|
      ensures f.requested[i] != f.requested[j]
    {
      RequestUrlInjective(f.query, i + 1, f.query, j + 1);
    }
  }

  /** Cursors of different families (popular against search, or searches
      for different names) never request a URL in common. */
  lemma DistinctQueriesShareNoRequest(f: PageFetcher, g: PageFetcher)
    requires f.Valid() && g.Valid() && f.query != g.query
    ensures forall i, j :: 0 <= i < |f.requested| && 0 <= j < |g.requested| ==> f.requested[i] != g.requested[j]
  {
    forall i, j | 0 <= i < |f.requested| && 0 <= j < |g.requested|
      ensures f.requested[i] != g.requested[j]
    {
      RequestUrlInjective(f.query, i + 1, g.query, j + 1);
    }
  }

  /** `getFetchPopularMoviePage`: a fresh popular-list cursor on page 1. */
  method GetFetchPopularMoviePage() returns (f: PageFetcher)
    ensures fresh(f) && f.Valid()
    ensures f.query == Popular && f.nowPage == 1 && f.requested == []
  {
    f := new PageFetcher(Popular);
  }

  /** `getFetchSearchMoviePage`: a fresh search cursor for `movieName` on page 1. */
  method GetFetchSearchMoviePage(movieName: string) returns (f: PageFetcher)
    ensures fresh(f) && f.Valid()
    ensures f.query == Search(movieName) && f.nowPage == 1 && f.requested == []
  {
    f := new PageFetcher(Search(movieName));
  }

  /** `fetchMovieDetail`: one request for the movie's detail URL, its JSON
      body normalised into a detail, or the failure of the request. */
  function FetchMovieDetail(movieId: string, server: string -> Response<RawDetail>): (r: Result<MovieDetail>)
    ensures r.Ok? <==> server(DetailUrl(movieId)).Json?
    ensures server(DetailUrl(movieId)).Unreachable? ==> r == Err(FetchFailed)
    ensures server(DetailUrl(movieId)).NotJson? ==> r == Err(InvalidJson)
    ensures r.Ok? ==> r.value == MovieDetailOf(server(DetailUrl(movieId)).body)
  {
    match server(DetailUrl(movieId))
    case Unreachable => Err(FetchFailed)
    case NotJson => Err(InvalidJson)
    case Json(obj) => Ok(MovieDetailOf(obj))
  }
}
