/** The two projections of the catalog's wire records onto the receiver's
    view model: a page entry onto the summary shown in a list, and a detail
    body onto the detail shown in the modal. */
module Normalise {
  import opened Js

  /** Base of thumbnail images in summaries. */
  const PosterSrcHeader: string := "https://image.tmdb.org/t/p/w220_and_h330_face/"
  /** Base of full-resolution posters in details. */
  const PosterOriginSrcHeader: string := "https://image.tmdb.org/t/p/original/"
  /** The genre list a detail shows when the body carries no `genres`. */
  const NoGenre: string := "장르 없음"

  /** A vote average: a floating-point number that is only ever copied. */
  type Rating = real

  /** One entry of a page's `results`, with the fields the receiver reads. */
  datatype RawMovie = RawMovie(
    id: Field<string>,
    title: Field<string>,
    posterPath: Field<string>,
    voteAverage: Field<Rating>)

  /** A summary shown in a movie list. */
  datatype MovieInfo = MovieInfo(
    title: Field<string>,
    imgSrc: string,
    rating: Field<Rating>,
    id: Field<string>)

  datatype RawGenre = RawGenre(name: Field<string>)

  /** A detail body, with the fields the receiver reads. */
  datatype RawDetail = RawDetail(
    title: Field<string>,
    posterPath: Field<string>,
    genres: Field<seq<RawGenre>>,
    voteAverage: Field<Rating>,
    overview: Field<string>)

  /** The detail shown for one movie. */
  datatype MovieDetail = MovieDetail(
    posterSrc: string,
    title: Field<string>,
    genres: seq<Field<string>>,
    rating: Field<Rating>,
    description: Field<string>)

  /** The summary of one entry. */
  function MovieInfoOf(raw: RawMovie): (info: MovieInfo)
    ensures info.title == raw.title && info.rating == raw.voteAverage && info.id == raw.id
    ensures |PosterSrcHeader| <= |info.imgSrc| && info.imgSrc[..|PosterSrcHeader|] == PosterSrcHeader
    ensures info.imgSrc[|PosterSrcHeader|..] == ToJsString(raw.posterPath)
  {
    Slices(PosterSrcHeader, [], [], ToJsString(raw.posterPath));
    MovieInfo(raw.title, PosterSrcHeader + ToJsString(raw.posterPath), raw.voteAverage, raw.id)
  }

  /** `results.map(...)`: one summary per entry, in the same order, with
      title, rating and id copied and the thumbnail address made of the
      thumbnail base followed by the poster path as it is (empty, `null`
      or missing paths included). */
  function MovieInfosInPage(results: seq<RawMovie>): (infos: seq<MovieInfo>)
    ensures |infos| == |results|
    ensures forall i :: 0 <= i < |results| ==>
      && infos[i].title == results[i].title
      && infos[i].rating == results[i].voteAverage
      && infos[i].id == results[i].id
      && infos[i].imgSrc == PosterSrcHeader + ToJsString(results[i].posterPath)
    decreases |results|
  {
    if results == [] then [] else [MovieInfoOf(results[0])] + MovieInfosInPage(results[1..])
  }

  /** Summarising a page piece by piece gives the summaries of the whole
      page: each entry's summary depends on that entry alone. */
  lemma MovieInfosInPageAppend(a: seq<RawMovie>, b: seq<RawMovie>)
    ensures MovieInfosInPage(a + b) == MovieInfosInPage(a) + MovieInfosInPage(b)
  {
  }

  /** `genres.map((genre) => genre.name)`. */
  function GenreNames(genres: seq<RawGenre>): (names: seq<Field<string>>)
    ensures |names| == |genres|
    ensures forall i :: 0 <= i < |genres| ==> names[i] == genres[i].name
    decreases |genres|
  {
    if genres == [] then [] else [genres[0].name] + GenreNames(genres[1..])
  }

  /** The detail of one movie: title, rating (the vote average) and
      description (the overview) copied, a `null` or missing overview
      copied as it is; the poster address made of the full-resolution base
      and the poster path; and the genre names in order when `genres` is
      there (so an empty list stays empty), the one-entry fallback list only
      when `genres` is `null` or missing. */
  function MovieDetailOf(obj: RawDetail): (d: MovieDetail)
    ensures d.title == obj.title && d.rating == obj.voteAverage && d.description == obj.overview
    ensures d.posterSrc == PosterOriginSrcHeader + ToJsString(obj.posterPath)
    ensures obj.genres.IsNullish() ==> d.genres == [Present(NoGenre)]
    ensures obj.genres.Present? ==>
      && |d.genres| == |obj.genres.value|
      && forall i :: 0 <= i < |d.genres| ==> d.genres[i] == obj.genres.value[i].name
  {
    var genres := match obj.genres
      case Present(list) => GenreNames(list)
      case _ => [Present(NoGenre)];
    MovieDetail(PosterOriginSrcHeader + ToJsString(obj.posterPath), obj.title, genres, obj.voteAverage, obj.overview)
  }

  /** The fallback genre list appears for an empty `genres` list only if it
      is missing; a present empty list gives no genres at all. */
  lemma EmptyGenresStayEmpty(obj: RawDetail)
    requires obj.genres == Present([])
    ensures MovieDetailOf(obj).genres == []
  {
  }

  /** A thumbnail address is never a full-resolution address: the two bases
      part at the first character after "https://image.tmdb.org/t/p/". */
  lemma PosterBasesDiffer(thumbnailPath: string, posterPath: string)
    ensures PosterSrcHeader + thumbnailPath != PosterOriginSrcHeader + posterPath
  {
    assert (PosterSrcHeader + thumbnailPath)[27] == 'w';
    assert (PosterOriginSrcHeader + posterPath)[27] == 'o';
  }

  /** Whatever the two records hold, a summary's image and a detail's poster
      are never the same address. */
  lemma SummaryImageIsNotDetailPoster(raw: RawMovie, obj: RawDetail)
    ensures MovieInfoOf(raw).imgSrc != MovieDetailOf(obj).posterSrc
  {
    PosterBasesDiffer(ToJsString(raw.posterPath), ToJsString(obj.posterPath));
  }
}
