/** The request URLs the receiver sends to the catalog API (popular list,
    title search, single-movie detail), and, as their inverses, readers
    that take a URL apart again. */
module TmdbUrls {
  import opened Js

  const PopularUrlHeader: string := "https://api.themoviedb.org/3/movie/popular?language=ko-KR&page="
  const SearchUrlHeader: string := "https://api.themoviedb.org/3/search/movie?query="
  const SearchUrlMiddle: string := "&include_adult=false&language=ko-KR&page="
  const DetailUrlHeader: string := "https://api.themoviedb.org/3/movie/"
  const DetailUrlTrailer: string := "?language=ko-KR"

  datatype Option<T> = None | Some(value: T)

  /** The popular-list URL for one page: the fixed header, then the page. */
  function PopularUrl(page: nat): string {
    PopularUrlHeader + NumberToString(page)
  }

  /** A popular-list URL is the fixed header followed by the page as
      canonical decimal text. */
  lemma PopularUrlLayout(page: nat)
    ensures var url, h := PopularUrl(page), |PopularUrlHeader|;
      && h <= |url| && url[..h] == PopularUrlHeader
      && IsCanonicalNumber(url[h..]) && ParseDigits(url[h..]) == page
  {
    Slices(PopularUrlHeader, [], [], NumberToString(page));
  }

  /** The search URL for one page. The movie name is spliced in as it is:
      no percent-encoding of `&`, `#`, spaces or non-ASCII text. */
  function SearchUrl(movieName: string, page: nat): string {
    SearchUrlHeader + movieName + SearchUrlMiddle + NumberToString(page)
  }

  /** A search URL is the fixed prefix, the movie name character for
      character, the fixed parameters, and the page as canonical decimal text. */
  lemma SearchUrlLayout(movieName: string, page: nat)
    ensures var url := SearchUrl(movieName, page);
      var h, n, m := |SearchUrlHeader|, |movieName|, |SearchUrlMiddle|;
      && h + n + m <= |url|
      && url[..h] == SearchUrlHeader
      && url[h..h + n] == movieName
      && url[h + n..h + n + m] == SearchUrlMiddle
      && IsCanonicalNumber(url[h + n + m..]) && ParseDigits(url[h + n + m..]) == page
  {
    Slices(SearchUrlHeader, movieName, SearchUrlMiddle, NumberToString(page));
  }

  /** The detail URL of one movie, with the identifier spliced in as it is. */
  function DetailUrl(movieId: string): string {
    DetailUrlHeader + movieId + DetailUrlTrailer
  }

  /** A detail URL is the fixed header, the identifier unchanged, and the
      language parameter, with nothing else. */
  lemma DetailUrlLayout(movieId: string)
    ensures var url, h, n := DetailUrl(movieId), |DetailUrlHeader|, |movieId|;
      && |url| == h + n + |DetailUrlTrailer|
      && url[..h] == DetailUrlHeader
      && url[h..h + n] == movieId
      && url[h + n..] == DetailUrlTrailer
  {
    Slices(DetailUrlHeader, movieId, DetailUrlTrailer, []);
  }

  /** The page a popular-list URL asks for, when it is one. */
  function ParsePopularUrl(url: string): (page: Option<nat>)
    ensures page.Some? ==> url == PopularUrl(page.value)
  {
    var h := |PopularUrlHeader|;
    if h <= |url| && url[..h] == PopularUrlHeader && IsCanonicalNumber(url[h..]) then
      CanonicalNumberUnique(url[h..]);
      assert url == url[..h] + url[h..];
      Some(ParseDigits(url[h..]))
    else
      None
  }

  /** Every popular-list URL is read back as the page it was built from. */
  lemma PopularUrlRoundTrip(page: nat)
    ensures ParsePopularUrl(PopularUrl(page)) == Some(page)
  {
  }

  /** The length of the longest run of digits that ends `s`. */
  function TrailingDigits(s: string): (k: nat)
    ensures k <= |s|
    decreases |s|
  {
    if s == [] || !IsDigit(s[|s| - 1]) then 0 else 1 + TrailingDigits(s[..|s| - 1])
  }

  /** Digits appended after a non-digit are exactly the trailing run. */
  lemma {:induction false} TrailingDigitsOf(front: string, digits: string)
    requires IsDigits(digits)
    requires |front| >= 1 && !IsDigit(front[|front| - 1])
    ensures TrailingDigits(front + digits) == |digits|
    decreases |digits|
  {
    var s := front + digits;
    if digits == [] {
      assert s == front;
    } else {
      assert s[..|s| - 1] == front + digits[..|digits| - 1];
      TrailingDigitsOf(front, digits[..|digits| - 1]);
    }
  }

  /** Cutting a text after a header, before its last `k` characters and
      before a middle part that ends the remainder, and gluing the pieces
      together again, gives the text back. */
  lemma Reassemble(url: string, header: string, middle: string, k: nat)
    requires |header| <= |url| && url[..|header|] == header
    requires k <= |url| - |header|
    requires |middle| <= |url| - |header| - k
    requires url[|url| - k - |middle|..|url| - k] == middle
    ensures url == header + url[|header|..|url| - k - |middle|] + middle + url[|url| - k..]
  {
  }

  /** Cuts `url` into `header`, a name, `middle` and the run of digits
      that ends it, when it has that shape and the digits are canonical. */
  function SplitAtTrailingNumber(url: string, header: string, middle: string): (parts: Option<(string, string)>)
    ensures parts.Some? ==> IsCanonicalNumber(parts.value.1)
    ensures parts.Some? ==> url == header + parts.value.0 + middle + parts.value.1
  {
    var h, m := |header|, |middle|;
    if h <= |url| && url[..h] == header then
      var k := TrailingDigits(url[h..]);
      var end := |url| - k;
      if h + m <= end && url[end - m..end] == middle && IsCanonicalNumber(url[end..]) then
        Reassemble(url, header, middle, k);
        Some((url[h..end - m], url[end..]))
      else
        None
    else
      None
  }

  /** The movie name and page a search URL asks for, when it is one. The
      page is the run of digits that ends the URL, so a name that itself
      contains `&page=` is still recovered whole. */
  function ParseSearchUrl(url: string): (query: Option<(string, nat)>)
    ensures query.Some? ==> url == SearchUrl(query.value.0, query.value.1)
  {
    match SplitAtTrailingNumber(url, SearchUrlHeader, SearchUrlMiddle)
    case None => None
    case Some((name, digits)) =>
      CanonicalNumberUnique(digits);
      Some((name, ParseDigits(digits)))
  }

  /** Every search URL is read back as the name and page it was built from:
      the name travels unchanged, character for character. */
  lemma SearchUrlRoundTrip(movieName: string, page: nat)
    ensures ParseSearchUrl(SearchUrl(movieName, page)) == Some((movieName, page))
  {
    var digits := NumberToString(page);
    Slices(SearchUrlHeader, movieName, SearchUrlMiddle, digits);
    TrailingDigitsOf(movieName + SearchUrlMiddle, digits);
  }

  /** The movie identifier a detail URL asks for, when it is one. */
  function ParseDetailUrl(url: string): (movieId: Option<string>)
    ensures movieId.Some? ==> url == DetailUrl(movieId.value)
  {
    var h, t := |DetailUrlHeader|, |DetailUrlTrailer|;
    if h + t <= |url| && url[..h] == DetailUrlHeader && url[|url| - t..] == DetailUrlTrailer then
      var id := url[h..|url| - t];
      assert url == url[..h] + id + url[|url| - t..];
      Some(id)
    else
      None
  }

  /** Every detail URL is read back as the identifier it was built from. */
  lemma DetailUrlRoundTrip(movieId: string)
    ensures ParseDetailUrl(DetailUrl(movieId)) == Some(movieId)
  {
  }

  /** Different pages of the popular list are different requests. */
  lemma PopularUrlInjective(a: nat, b: nat)
    ensures PopularUrl(a) == PopularUrl(b) ==> a == b
  {
    PopularUrlRoundTrip(a);
    PopularUrlRoundTrip(b);
  }

  /** Different (name, page) pairs are different search requests. */
  lemma SearchUrlInjective(m1: string, a: nat, m2: string, b: nat)
    ensures SearchUrl(m1, a) == SearchUrl(m2, b) ==> m1 == m2 && a == b
  {
    SearchUrlRoundTrip(m1, a);
    SearchUrlRoundTrip(m2, b);
  }

  /** A popular-list request is never a search request: the two endpoints
      part at the first character after "https://api.themoviedb.org/3/". */
  lemma PopularUrlIsNotSearchUrl(page: nat, movieName: string, searchPage: nat)
    ensures PopularUrl(page) != SearchUrl(movieName, searchPage)
  {
    assert PopularUrl(page)[29] == 'm';
    assert SearchUrl(movieName, searchPage)[29] == 's';
  }
}
