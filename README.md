# MoviePageReceiver: page cursors and catalog normalisation

This project models the data-access layer of a movie-review web client, the
`MoviePageReceiver` class. The class talks to a movie catalog API (TMDB). It
hands out page cursors: one for the popular-movie list, and one per search
text. Each cursor is a callable with a private page counter `nowPage`, which
starts at 1. Every call builds the request URL from the counter, advances the
counter, and turns the returned page envelope into movie summaries and an
`isLastPage` flag. The class also fetches a single movie's detail record and
normalises it.

The model is split into modules:

- `Js` (js.dfy): values from a parsed JSON body (`Field<T>`: present, `null`,
  or `undefined`). It also holds the two conversions to text that the class
  relies on. `ToJsString` is what `+` does to a string field that may be
  missing. `NumberToString` is what a template literal does to the page
  counter.
- `TmdbUrls` (tmdb_urls.dfy): the request URLs. Each builder has a parser
  that takes the URL apart again, and the two are proved inverse.
- `Normalise` (normalise.dfy): `#getMovieInfosInPage` and `#getMovieDetail`
  as functions over raw-record datatypes.
- `MoviePageReceiver` (movie_page_receiver.dfy): the cursor closure is a
  class `PageFetcher` with a mutable `nowPage` field. A ghost record
  `requested` holds the URLs asked for so far. The module also holds the two
  factories, the `isLastPage` computation, and `fetchMovieDetail`.
- `Scenarios` (scenarios.dfy): client code that calls cursors in sequence,
  and what it is guaranteed to observe.

The network is a parameter. `server: string -> Response<T>` says what a
request for a URL yields. It can be a rejected request (`Unreachable`), a
body that is not JSON (`NotJson`), or a parsed object (`Json(body)`). A
cursor call is `Fetch(server)`. `Fetch` computes the URL, advances the
counter, and then normalises `server(url)`.

Behaviour reproduced as the code has it:

- The genre fallback `["장르 없음"]` is used only when `genres` is `null` or
  missing. A present empty list stays empty.
- The search text is put into the URL verbatim. It is not percent-encoded, so
  an `&` in the name starts a query parameter of its own.
- `isLastPage` compares the constant `#popularPage`, which is 1, with
  `total_pages`. It never compares with the cursor's page. So with two pages,
  the second call reports `false` even though it fetched the last page.
- The counter advances before the request is made. A failed call still uses
  up its page.
- A missing `poster_path` is not checked. String concatenation turns
  `undefined` into the text "undefined" and `null` into "null". TMDB paths
  begin with `/`, and both image bases end with `/`, so real addresses
  contain `//`.
- A response without `results` (the API's error payload, for example) makes
  `.map` throw. The call is then rejected with a `TypeError`.

## Model

| member | source | states |
|---|---|---|
| `Js.ToJsString` | src/apis/MoviePageReceiver.ts:124 | JavaScript's `+` of a base string and a string field: a present value is appended unchanged, `null` as the text "null", a missing field as "undefined". |
| `Js.NumberToString` | src/apis/MoviePageReceiver.ts:62 | The counter is rendered as a canonical decimal text: at least one digit, no leading zero, and its digits read back as the counter. |
| `Js.CanonicalNumberUnique` | src/apis/MoviePageReceiver.ts:62 | The converse: a canonical digit string is the rendering of the number it denotes, so every page has exactly one textual form. |
| `Js.NumberToStringInjective` | src/apis/MoviePageReceiver.ts:62 | Different counters are rendered as different texts. |
| `TmdbUrls.PopularUrlLayout` | src/apis/MoviePageReceiver.ts:62 | The popular-list URL for page p is the popular header followed by p as canonical decimal text. Its meaning is pinned down further by `ParsePopularUrl` and `PopularUrlRoundTrip`. |
| `TmdbUrls.ParsePopularUrl` | src/apis/MoviePageReceiver.ts:48-49 | When a URL is read as a popular-list request for page p, it is exactly the popular header followed by p. |
| `TmdbUrls.PopularUrlRoundTrip` | src/apis/MoviePageReceiver.ts:62 | The URL for page p is read back as page p. |
| `TmdbUrls.PopularUrlInjective` | src/apis/MoviePageReceiver.ts:62-64 | Different pages give different popular-list URLs. |
| `TmdbUrls.SearchUrlLayout` | src/apis/MoviePageReceiver.ts:77-78 | The search URL for (name, p) is the search prefix, the name character for character, `&include_adult=false&language=ko-KR&page=`, then p as canonical decimal text. Its meaning is pinned down further by `ParseSearchUrl` and `SearchUrlRoundTrip`. |
| `TmdbUrls.ParseSearchUrl` | src/apis/MoviePageReceiver.ts:77-78 | When a URL is read as a search for (name, p), it is exactly the search prefix, then the name, then `&include_adult=false&language=ko-KR&page=`, then p. |
| `TmdbUrls.SearchUrlRoundTrip` | src/apis/MoviePageReceiver.ts:77-78 | The search URL for (name, p) is read back as the same name, character for character, and the same page. |
| `TmdbUrls.SearchUrlInjective` | src/apis/MoviePageReceiver.ts:78 | Different (name, page) pairs give different search URLs. |
| `TmdbUrls.PopularUrlIsNotSearchUrl` | src/apis/MoviePageReceiver.ts:48-78 | A popular-list URL is never a search URL, whatever the pages and the name. |
| `TmdbUrls.DetailUrlLayout` | src/apis/MoviePageReceiver.ts:95 | The detail URL of an id is exactly `https://api.themoviedb.org/3/movie/`, the id unchanged, and `?language=ko-KR`, with nothing else. Its meaning is pinned down further by `ParseDetailUrl` and `DetailUrlRoundTrip`. |
| `TmdbUrls.ParseDetailUrl` | src/apis/MoviePageReceiver.ts:95 | When a URL is read as a detail request for an id, it is exactly `https://api.themoviedb.org/3/movie/`, then the id, then `?language=ko-KR`. |
| `TmdbUrls.DetailUrlRoundTrip` | src/apis/MoviePageReceiver.ts:95 | The detail URL of an id is read back as that id, unchanged. |
| `Normalise.MovieInfoOf` | src/apis/MoviePageReceiver.ts:122-127 | One entry's summary copies title, rating (from `vote_average`) and id. Its `imgSrc` begins with the thumbnail base, and the rest is the poster path as `+` renders it. |
| `Normalise.MovieInfosInPage` | src/apis/MoviePageReceiver.ts:120-128 | One summary per result, same length and order. Title, rating and id are copied. `imgSrc` is the thumbnail base followed by the poster path, with no check on the path. |
| `Normalise.MovieInfosInPageAppend` | src/apis/MoviePageReceiver.ts:121 | Normalising a page in two parts gives the same summaries as normalising it whole: each summary depends only on its own entry. |
| `Normalise.GenreNames` | src/apis/MoviePageReceiver.ts:107 | Each genre is mapped to its `name`, in order and with the same length. |
| `Normalise.MovieDetailOf` | src/apis/MoviePageReceiver.ts:104-111 | Title, rating (from `vote_average`) and description (from `overview`, a `null` or missing overview is copied as it is) are copied. `posterSrc` is the original-resolution base followed by the poster path. Genres are the names when the list is present, and the one-entry fallback only when it is `null` or missing. |
| `Normalise.EmptyGenresStayEmpty` | src/apis/MoviePageReceiver.ts:107 | A present, empty genre list gives an empty list, not the fallback. |
| `Normalise.PosterBasesDiffer` | src/apis/MoviePageReceiver.ts:46-47 | No thumbnail address equals an original-resolution address. |
| `Normalise.SummaryImageIsNotDetailPoster` | src/apis/MoviePageReceiver.ts:104-128 | A summary's image address is never a detail's poster address, whatever the two records hold. |
| `MoviePageReceiver.RequestUrlRoundTrip` | src/apis/MoviePageReceiver.ts:62-81 | A cursor's request for page p reads back as a popular-list request for p, or as a search for the cursor's name and p. So the URL is the one the family's builder makes, and the popular and search builders are pinned down as above. |
| `MoviePageReceiver.RequestUrlInjective` | src/apis/MoviePageReceiver.ts:58-92 | Two cursor requests have the same URL only if both the query family (popular, or a search for one name) and the page are the same. |
| `MoviePageReceiver.IsLastPageAgreesWithCursorOnlyOnPageOne` | src/apis/MoviePageReceiver.ts:45-70 | `isLastPage` compares `total_pages` with the constant 1, not with the cursor's page. For a cursor page `now`, the flag agrees for every body with "`total_pages` equals `now`" exactly when `now` is 1. |
| `MoviePageReceiver.PageOutcome` | src/apis/MoviePageReceiver.ts:65-71 | A call succeeds exactly when the body is JSON and has `results`. Its summaries are then the normalised results, and `isLastPage` holds exactly when `total_pages` is 1. Otherwise the call fails: a rejected request, a non-JSON body and a missing `results` are kept apart in the model by three abstract labels. |
| `MoviePageReceiver.RequestedInOrderAppend` | src/apis/MoviePageReceiver.ts:59-64 | If the first n requests were pages 1 to n in order, then adding the request for page n + 1 keeps that true. |
| `MoviePageReceiver.PageFetcher.constructor` | src/apis/MoviePageReceiver.ts:59 | A new cursor starts on page 1 with nothing requested. |
| `MoviePageReceiver.PageFetcher.Fetch` | src/apis/MoviePageReceiver.ts:61-71 | A call requests the URL of the current page, then raises the counter by exactly 1 whatever the response. The result is the normalised response to that URL. The invariant kept is that the n-th call requested page n. |
| `MoviePageReceiver.NoUrlRequestedTwice` | src/apis/MoviePageReceiver.ts:59-64 | A cursor never requests the same URL twice. |
| `MoviePageReceiver.DistinctQueriesShareNoRequest` | src/apis/MoviePageReceiver.ts:75-83 | Cursors of different query families never request a URL in common. |
| `MoviePageReceiver.GetFetchPopularMoviePage` | src/apis/MoviePageReceiver.ts:58-73 | Returns a fresh popular-list cursor on page 1. |
| `MoviePageReceiver.GetFetchSearchMoviePage` | src/apis/MoviePageReceiver.ts:75-92 | Returns a fresh search cursor for the name, on page 1. |
| `MoviePageReceiver.FetchMovieDetail` | src/apis/MoviePageReceiver.ts:94-102 | Requests the movie's detail URL. Succeeds exactly when the body is JSON, and then gives the normalised detail of that body. Otherwise it gives the failure of the request. |
| `Scenarios.ThreePopularCalls` | src/apis/MoviePageReceiver.ts:59-64 | Three calls of one popular cursor get the responses for pages 1, 2 and 3, in that order. |
| `Scenarios.RetryAfterFailure` | src/apis/MoviePageReceiver.ts:81-84 | After a rejected first call, the next call asks for page 2. |
| `Scenarios.IndependentCursors` | src/apis/MoviePageReceiver.ts:59-83 | A search cursor and a second popular cursor both start at page 1 however far another popular cursor has gone, and that cursor carries on from its own page. |
| `Scenarios.SinglePageCatalog` | src/apis/MoviePageReceiver.ts:66-70 | With `total_pages` equal to 1, the first call succeeds, reports the last page, and has one summary per result. |
| `Scenarios.TwoPageCatalog` | src/apis/MoviePageReceiver.ts:70 | With `total_pages` equal to 2, neither the first call nor the second (which fetches the actual last page) reports the last page. |
| `Scenarios.ErrorPayload` | src/apis/MoviePageReceiver.ts:83-85 | A body without `results` rejects the call with a TypeError, and the next call asks for page 2. |
| `Scenarios.DetailWithEmptyGenres` | src/apis/MoviePageReceiver.ts:104-111 | A detail body with `genres: []` gives no genres. Its poster address is the original base, then `/p.jpg`, with the doubled slash. |
| `Scenarios.DetailWithoutGenres` | src/apis/MoviePageReceiver.ts:105-109 | A detail body with neither `genres` nor `overview` gives the fallback genre list and no description. |
| `Scenarios.SearchNameUnescaped` | src/apis/MoviePageReceiver.ts:78 | Example: the name `a b&c` appears in the search URL as it was typed. The space and the `&` are not escaped. |
| `Scenarios.SummaryWithoutPoster` | src/apis/MoviePageReceiver.ts:124 | An entry with no poster path gets the thumbnail base followed by the text "undefined". |

## Left out

- The `fetch` calls, the `#options` headers and the bearer token from `process.env.ACCESS_TOKEN` are left out. So are `response.json()` and the promise machinery. They are I/O, and the `server` parameter stands in for them. The model does not distinguish a rejected `json()` from a body that parses to something other than an object.
- Concurrent calls on one cursor are left out, and so is the order in which responses complete. Only sequential calls are modelled.
- `rating` / `vote_average` is a `real` that is only copied. No floating-point behaviour is modelled.
- `nowPage` is an unbounded natural. The model does not capture the precision loss of JavaScript numbers above 2^53, nor their exponent notation from 10^21 on. No client could make that many calls.
- Unused wire fields are left out: the envelope's `page` and `total_results`, and `adult`, `genre_ids`, `popularity` and the like. No behaviour depends on them.
- `total_pages` that is not an integer, a JSON body that is not an object, a `genres` that is not an array, and entries that are not objects are left out. In the code these give a different comparison or a `TypeError`. The datatypes cannot express them.
- `FetchFailed`, `InvalidJson` and `TypeError` are abstract labels. The model keeps the three failure paths apart, but the program does not. In a browser, a failed `fetch` also rejects with a `TypeError`, and the caller only sees a rejected promise.
- `ToJsString` covers string fields that are present, `null` or missing. It does not cover other JSON types, such as a number in `poster_path`.
- src/components/HeaderModal/HeaderModal.ts is not part of this model. It is DOM presentation code: element creation, text updates and click listeners.
