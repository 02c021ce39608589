/** The JSON payloads of the media-metadata API, as the front end reads them.
    A field the code reads with `?.` or `|| []` is an Option; a string field that may be
    missing or null is a JsStr. */
module Payloads {
  import opened Js

  datatype Video = Video(key: string, videoType: string, site: string, name: string)

  datatype CrewMember = CrewMember(name: string, job: string)

  datatype CastMember = CastMember(id: int, name: string, character: string, profilePath: JsStr)

  /** `credits`: its `cast` and `crew` arrays may be missing. */
  datatype Credits = Credits(cast: Option<seq<CastMember>>, crew: Option<seq<CrewMember>>)

  /** A `{ results: [...] }` wrapper whose array may be missing. */
  datatype Page<+T> = Page(results: Option<seq<T>>)

  datatype Genre = Genre(id: int, name: string)

  datatype Company = Company(id: int, name: string)

  datatype Review = Review(author: string, content: string)

  /** One entry of a list, search or "similar" response: a movie, a tv show, or (from
      multi-search) whatever `media_type` says. */
  datatype Item = Item(
    id: RawId,
    title: JsStr,
    name: JsStr,
    releaseDate: JsStr,
    firstAirDate: JsStr,
    mediaType: JsStr,
    posterPath: JsStr,
    genreIds: Option<seq<int>>,
    overview: JsStr)

  /** The body of `/movie/{id}` or `/tv/{id}` with
      `append_to_response=credits,videos,similar,reviews,images`. */
  datatype DetailPayload = DetailPayload(
    id: int,
    title: JsStr,
    name: JsStr,
    overview: JsStr,
    releaseDate: JsStr,
    firstAirDate: JsStr,
    runtime: Option<int>,
    episodeRunTime: Option<seq<int>>,
    genres: Option<seq<Genre>>,
    productionCompanies: Option<seq<Company>>,
    posterPath: JsStr,
    backdropPath: JsStr,
    credits: Option<Credits>,
    videos: Option<Page<Video>>,
    similar: Option<Page<Item>>,
    reviews: Option<Page<Review>>)

  /** A detail payload with its appended sub-objects flattened into plain lists
      (`{...data, cast, crew, videos, similar, reviews}`). */
  datatype Detail = Detail(
    data: DetailPayload,
    cast: seq<CastMember>,
    crew: seq<CrewMember>,
    videos: seq<Video>,
    similar: seq<Item>,
    reviews: seq<Review>)

  /** `x?.results || []` */
  function ResultsOr<T>(p: Option<Page<T>>): seq<T> {
    if p.Some? && p.value.results.Some? then p.value.results.value else []
  }
}
