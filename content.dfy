/** src/Components/Content.jsx: the list-with-modal component. Its genre labels, the
    extraction of cast, director/creator, trailer and streaming platforms from three
    dependent responses, the movie/tv guess on click, the overview cut, and the modal state
    that its handlers set step by step. */
module Content {
  import opened Js
  import opened Payloads
  import TmdbService

  // ---------------------------------------------------------------------------
  // Genre labels

  const MovieGenres: seq<Genre> := [
    Genre(28, "Action"), Genre(12, "Adventure"), Genre(16, "Animation"), Genre(35, "Comedy"),
    Genre(80, "Crime"), Genre(99, "Documentary"), Genre(18, "Drama"), Genre(10751, "Family"),
    Genre(14, "Fantasy"), Genre(36, "History"), Genre(27, "Horror"), Genre(10402, "Music"),
    Genre(9648, "Mystery"), Genre(10749, "Romance"), Genre(878, "Science Fiction"),
    Genre(10770, "TV Movie"), Genre(53, "Thriller"), Genre(10752, "War"), Genre(37, "Western")]

  const TvGenres: seq<Genre> := [
    Genre(10759, "Action & Adventure"), Genre(16, "Animation"), Genre(35, "Comedy"),
    Genre(80, "Crime"), Genre(99, "Documentary"), Genre(18, "Drama"), Genre(10751, "Family"),
    Genre(10762, "Kids"), Genre(9648, "Mystery"), Genre(10763, "News"), Genre(10764, "Reality"),
    Genre(10765, "Sci-Fi & Fantasy"), Genre(10766, "Soap"), Genre(10767, "Talk"),
    Genre(10768, "War & Politics"), Genre(37, "Western")]

  function Genres(isTvShow: bool): seq<Genre> {
    if isTvShow then TvGenres else MovieGenres
  }

  /** `genres.find((genre) => genre.id === id)?.name` */
  function GenreNameOf(genres: seq<Genre>, id: int): Option<string> {
    match Find(genres, (g: Genre) => g.id == id)
    case Some(g) => Some(g.name)
    case None => None
  }

  /** `genreIds.map(id => ...?.name).filter(Boolean)`: the names of the known ids, in order. */
  function GenreNameList(genreIds: seq<int>, isTvShow: bool): seq<string> {
    if genreIds == [] then []
    else
      var rest := GenreNameList(genreIds[1..], isTvShow);
      match GenreNameOf(Genres(isTvShow), genreIds[0])
      case Some(n) => if n != "" then [n] + rest else rest
      case None => rest
  }

  /** `getGenreNames(genreIds, isTvShow)` */
  function GetGenreNames(genreIds: seq<int>, isTvShow: bool): string {
    Join(GenreNameList(genreIds, isTvShow), ", ")
  }

  /** Every entry of the list is in the table under its id, with its name. */
  lemma MovieGenresInTable()
    ensures forall i :: 0 <= i < |MovieGenres| ==> MovieGenres[i].id in TmdbService.MovieGenreTable && TmdbService.MovieGenreTable[MovieGenres[i].id] == MovieGenres[i].name
  {
    MovieGenresInTableFrom0();
    MovieGenresInTableFrom5();
    MovieGenresInTableFrom10();
    MovieGenresInTableFrom15();
  }

  lemma MovieGenresInTableFrom0()
    ensures forall i :: 0 <= i < 5 ==> MovieGenres[i].id in TmdbService.MovieGenreTable && TmdbService.MovieGenreTable[MovieGenres[i].id] == MovieGenres[i].name
  {
  }

  lemma MovieGenresInTableFrom5()
    ensures forall i :: 5 <= i < 10 ==> MovieGenres[i].id in TmdbService.MovieGenreTable && TmdbService.MovieGenreTable[MovieGenres[i].id] == MovieGenres[i].name
  {
  }

  lemma MovieGenresInTableFrom10()
    ensures forall i :: 10 <= i < 15 ==> MovieGenres[i].id in TmdbService.MovieGenreTable && TmdbService.MovieGenreTable[MovieGenres[i].id] == MovieGenres[i].name
  {
  }

  lemma MovieGenresInTableFrom15()
    ensures forall i :: 15 <= i < 19 ==> MovieGenres[i].id in TmdbService.MovieGenreTable && TmdbService.MovieGenreTable[MovieGenres[i].id] == MovieGenres[i].name
  {
  }

  /** Every key of the table is the id of an entry of the list. */
  lemma MovieGenresCoverTable()
    ensures forall id :: id in TmdbService.MovieGenreTable ==> exists i :: 0 <= i < |MovieGenres| && MovieGenres[i].id == id
  {
    // The ids by position, which lets each table key be matched with its list entry.
    assert MovieGenres[0].id == 28 && MovieGenres[1].id == 12 && MovieGenres[2].id == 16 && MovieGenres[3].id == 35
        && MovieGenres[4].id == 80 && MovieGenres[5].id == 99 && MovieGenres[6].id == 18 && MovieGenres[7].id == 10751
        && MovieGenres[8].id == 14 && MovieGenres[9].id == 36 && MovieGenres[10].id == 27 && MovieGenres[11].id == 10402
        && MovieGenres[12].id == 9648 && MovieGenres[13].id == 10749 && MovieGenres[14].id == 878 && MovieGenres[15].id == 10770
        && MovieGenres[16].id == 53 && MovieGenres[17].id == 10752 && MovieGenres[18].id == 37;
  }

  /** Every entry of the list is in the table under its id, with its name. */
  lemma TvGenresInTable()
    ensures forall i :: 0 <= i < |TvGenres| ==> TvGenres[i].id in TmdbService.TvGenreTable && TmdbService.TvGenreTable[TvGenres[i].id] == TvGenres[i].name
  {
    TvGenresInTableFrom0();
    TvGenresInTableFrom5();
    TvGenresInTableFrom10();
    TvGenresInTableFrom15();
  }

  lemma TvGenresInTableFrom0()
    ensures forall i :: 0 <= i < 5 ==> TvGenres[i].id in TmdbService.TvGenreTable && TmdbService.TvGenreTable[TvGenres[i].id] == TvGenres[i].name
  {
  }

  lemma TvGenresInTableFrom5()
    ensures forall i :: 5 <= i < 10 ==> TvGenres[i].id in TmdbService.TvGenreTable && TmdbService.TvGenreTable[TvGenres[i].id] == TvGenres[i].name
  {
  }

  lemma TvGenresInTableFrom10()
    ensures forall i :: 10 <= i < 15 ==> TvGenres[i].id in TmdbService.TvGenreTable && TmdbService.TvGenreTable[TvGenres[i].id] == TvGenres[i].name
  {
  }

  lemma TvGenresInTableFrom15()
    ensures forall i :: 15 <= i < 16 ==> TvGenres[i].id in TmdbService.TvGenreTable && TmdbService.TvGenreTable[TvGenres[i].id] == TvGenres[i].name
  {
  }

  /** Every key of the table is the id of an entry of the list. */
  lemma TvGenresCoverTable()
    ensures forall id :: id in TmdbService.TvGenreTable ==> exists i :: 0 <= i < |TvGenres| && TvGenres[i].id == id
  {
    // The ids by position, which lets each table key be matched with its list entry.
    assert TvGenres[0].id == 10759 && TvGenres[1].id == 16 && TvGenres[2].id == 35 && TvGenres[3].id == 80
        && TvGenres[4].id == 99 && TvGenres[5].id == 18 && TvGenres[6].id == 10751 && TvGenres[7].id == 10762
        && TvGenres[8].id == 9648 && TvGenres[9].id == 10763 && TvGenres[10].id == 10764 && TvGenres[11].id == 10765
        && TvGenres[12].id == 10766 && TvGenres[13].id == 10767 && TvGenres[14].id == 10768 && TvGenres[15].id == 37;
  }

  /** Each list entry, read through the lookup table of the service module: the same
      genres with the same names, and no table key without an entry. */
  lemma GenreListsMatchTables(isTvShow: bool)
    ensures var table := TmdbService.GenreTable(if isTvShow then "tv" else "movie");
      && (forall i :: 0 <= i < |Genres(isTvShow)| ==>
            Genres(isTvShow)[i].id in table && table[Genres(isTvShow)[i].id] == Genres(isTvShow)[i].name)
      && (forall id :: id in table ==> exists i :: 0 <= i < |Genres(isTvShow)| && Genres(isTvShow)[i].id == id)
  {
    var table := TmdbService.GenreTable(if isTvShow then "tv" else "movie");
    var genres := Genres(isTvShow);
    if isTvShow {
      TvGenresInTable();
      TvGenresCoverTable();
    } else {
      MovieGenresInTable();
      MovieGenresCoverTable();
    }
    forall id | id in table
      ensures exists i :: 0 <= i < |genres| && genres[i].id == id
    {
      var i :| 0 <= i < |genres| && genres[i].id == id;
    }
  }

  /** The name lookup over the list agrees with `tmdbUtils.getGenreName` over its table. */
  lemma GenreNameOfMatchesService(id: int, isTvShow: bool)
    ensures var kind := if isTvShow then "tv" else "movie";
      GenreNameOf(Genres(isTvShow), id) ==
        if id in TmdbService.GenreTable(kind) then Some(TmdbService.GetGenreName(id, kind)) else None
  {
    var kind := if isTvShow then "tv" else "movie";
    var table := TmdbService.GenreTable(kind);
    GenreListsMatchTables(isTvShow);
    var p := (g: Genre) => g.id == id;
    match FindIndex(Genres(isTvShow), p)
    case Some(i) =>
      assert Genres(isTvShow)[i].id == id;
    case None =>
  }

  /** The genre label names exactly the ids that are known for the kind, in their order,
      with the names `tmdbUtils.getGenreName` gives them. */
  lemma {:induction false} GenreNameListSpec(genreIds: seq<int>, isTvShow: bool)
    ensures var kind := if isTvShow then "tv" else "movie";
      GenreNameList(genreIds, isTvShow) ==
        KnownGenreNames(genreIds, kind)
  {
    if genreIds != [] {
      GenreNameOfMatchesService(genreIds[0], isTvShow);
      GenreNameListSpec(genreIds[1..], isTvShow);
    }
  }

  /** Reference definition: the service's names of the ids in the kind's table. */
  function KnownGenreNames(genreIds: seq<int>, kind: string): (r: seq<string>)
    ensures |r| <= |genreIds|
    ensures forall i :: 0 <= i < |r| ==> r[i] != "" && r[i] != "Unknown"
  {
    if genreIds == [] then []
    else if genreIds[0] in TmdbService.GenreTable(kind)
    then [TmdbService.GetGenreName(genreIds[0], kind)] + KnownGenreNames(genreIds[1..], kind)
    else KnownGenreNames(genreIds[1..], kind)
  }

  lemma {:induction false} KnownGenreNamesEmptyIff(genreIds: seq<int>, kind: string)
    ensures KnownGenreNames(genreIds, kind) == [] <==>
      forall i :: 0 <= i < |genreIds| ==> genreIds[i] !in TmdbService.GenreTable(kind)
  {
    if genreIds != [] {
      KnownGenreNamesEmptyIff(genreIds[1..], kind);
      assert forall i :: 1 <= i < |genreIds| ==> genreIds[i] == genreIds[1..][i - 1];
    }
  }

  const UnknownGenresLabel := "Unknown Genres"

  /** `getGenreNames(selectedMovie.genre_ids || [], isTvShow) || "Unknown Genres"`: the known
      names joined by ", ", or the fallback exactly when no id is known for the kind. */
  function GenreLabel(genreIds: Option<seq<int>>, isTvShow: bool): (r: string)
    ensures var ids := genreIds.GetOr([]);
      var kind := if isTvShow then "tv" else "movie";
      && ((forall i :: 0 <= i < |ids| ==> ids[i] !in TmdbService.GenreTable(kind)) ==> r == UnknownGenresLabel)
      && ((exists i :: 0 <= i < |ids| && ids[i] in TmdbService.GenreTable(kind)) ==>
            r == Join(KnownGenreNames(ids, kind), ", "))
  {
    var ids := genreIds.GetOr([]);
    var kind := if isTvShow then "tv" else "movie";
    GenreNameListSpec(ids, isTvShow);
    KnownGenreNamesEmptyIff(ids, kind);
    JoinEmptyIff(KnownGenreNames(ids, kind), ", ");
    var names := GetGenreNames(ids, isTvShow);
    if names != "" then names else UnknownGenresLabel
  }

  // ---------------------------------------------------------------------------
  // fetchMovieDetails: one primary request, then credits, videos and watch providers

  /** A `fetch` response: `response.ok` and the parsed JSON body. */
  datatype Response<+T> = Response(ok: bool, body: T)

  datatype Platform = Platform(providerId: int, providerName: string)

  datatype RegionProviders = RegionProviders(flatrate: Option<seq<Platform>>)

  /** The body of `/{kind}/{id}/watch/providers`: `results` keyed by country code. */
  datatype ProvidersBody = ProvidersBody(results: Option<map<string, RegionProviders>>)

  /** The modal's `movieDetails` state. */
  datatype MovieDetails = MovieDetails(cast: seq<CastMember>, director: string, trailerUrl: string, platforms: seq<Platform>)

  const Region := "IN"
  const CastCap := 15
  const EmptyDetails := MovieDetails([], "", "", [])
  const UnavailableDetails := MovieDetails([], "Unavailable", "", [])
  const EmbedUrlPrefix := "https://www.youtube.com/embed/"

  /** The crew job that names the person shown: "Creator" for tv, "Director" for a movie. */
  function LeadJob(isTv: bool): string {
    if isTv then "Creator" else "Director"
  }

  /** `platformData.results?.IN?.flatrate || []` */
  function RegionPlatforms(body: ProvidersBody): (r: seq<Platform>)
    ensures body.results.None? || Region !in body.results.value ==> r == []
    ensures body.results.Some? && Region in body.results.value ==>
      r == body.results.value[Region].flatrate.GetOr([])
  {
    if body.results.Some? && Region in body.results.value
    then body.results.value[Region].flatrate.GetOr([])
    else []
  }

  /** True when every response is ok and the arrays the code dereferences without `?.`
      (`castData.crew`, `castData.cast`, `trailerData.results`) are present; otherwise the
      code throws and the catch block takes over. */
  predicate Extractable(primaryOk: bool, credits: Response<Credits>, videos: Response<Page<Video>>, providers: Response<ProvidersBody>) {
    && primaryOk && credits.ok && videos.ok && providers.ok
    && credits.body.cast.Some? && credits.body.crew.Some? && videos.body.results.Some?
  }

  /** The `movieDetails` that `fetchMovieDetails(id, isTv)` ends with. */
  function FetchMovieDetails(isTv: bool, primaryOk: bool, credits: Response<Credits>,
                             videos: Response<Page<Video>>, providers: Response<ProvidersBody>): (r: MovieDetails)
    ensures !Extractable(primaryOk, credits, videos, providers) ==> r == UnavailableDetails
    ensures Extractable(primaryOk, credits, videos, providers) ==>
      var cast := credits.body.cast.value;
      var crew := credits.body.crew.value;
      var results := videos.body.results.value;
      && |r.cast| == Min(CastCap, |cast|) && r.cast == cast[..|r.cast|]
      && (forall i :: FirstWhere(crew, (m: CrewMember) => m.job == LeadJob(isTv), i) ==> r.director == crew[i].name)
      && ((forall i :: 0 <= i < |crew| ==> crew[i].job != LeadJob(isTv)) ==> r.director == "Not Available")
      && (forall i :: FirstWhere(results, TmdbService.IsYouTubeTrailer, i) ==> r.trailerUrl == EmbedUrlPrefix + results[i].key)
      && ((forall i :: 0 <= i < |results| ==> !TmdbService.IsYouTubeTrailer(results[i])) ==> r.trailerUrl == "")
      && r.platforms == RegionPlatforms(providers.body)
  {
    if !Extractable(primaryOk, credits, videos, providers) then UnavailableDetails
    else
      var job := LeadJob(isTv);
      var lead := Find(credits.body.crew.value, (m: CrewMember) => m.job == job);
      var trailer := Find(videos.body.results.value, TmdbService.IsYouTubeTrailer);
      MovieDetails(
        Take(credits.body.cast.value, CastCap),
        if lead.Some? then lead.value.name else "Not Available",
        if trailer.Some? then EmbedUrlPrefix + trailer.value.key else "",
        RegionPlatforms(providers.body))
  }

  /** A failure of any one dependent request wipes every field, including the ones whose
      own request succeeded: the degradation is all-or-nothing. */
  lemma OneFailureLosesEverything(isTv: bool, credits: Response<Credits>, videos: Response<Page<Video>>, providers: Response<ProvidersBody>)
    requires Extractable(true, credits, videos, providers)
    requires credits.body.cast.value != []
    ensures FetchMovieDetails(isTv, true, credits, videos, providers).cast != []
    ensures FetchMovieDetails(isTv, true, credits, videos, providers.(ok := false)).cast == []
    ensures FetchMovieDetails(isTv, true, credits, videos, providers.(ok := false)).director == "Unavailable"
  {
  }

  // ---------------------------------------------------------------------------
  // Selection and the overview

  /** `movie.media_type === "tv" || movie.first_air_date !== undefined` */
  function IsTvItem(movie: Item): (r: bool)
    ensures r <==> movie.mediaType == Str("tv") || !movie.firstAirDate.Undef?
  {
    movie.mediaType == Str("tv") || movie.firstAirDate.Defined()
  }

  const OverviewCut := 150

  /** The overview paragraph: whole when expanded, else its first 150 characters and "...". */
  function OverviewText(overview: string, expanded: bool): (r: string)
    ensures expanded ==> r == overview
    ensures !expanded ==>
      && |r| == Min(OverviewCut, |overview|) + 3
      && r[..|r| - 3] == overview[..|r| - 3]
      && r[|r| - 3..] == "..."
  {
    if expanded then overview else Take(overview, OverviewCut) + "..."
  }

  /** The request `fetchMovieDetails(id, isTv)` is started with. */
  datatype DetailRequest = DetailRequest(id: RawId, isTv: bool)

  /** The modal state of the Content component. */
  class ContentView {
    var selectedMovie: Option<Item>
    var movieDetails: MovieDetails
    var isDescriptionExpanded: bool
    var isTvShow: bool

    constructor ()
      ensures selectedMovie == None && movieDetails == EmptyDetails
      ensures !isDescriptionExpanded && !isTvShow
    {
      selectedMovie := None;
      movieDetails := EmptyDetails;
      isDescriptionExpanded := false;
      isTvShow := false;
    }

    /** `resetMovieDetails()` */
    method ResetMovieDetails()
      modifies this
      ensures movieDetails == EmptyDetails && !isDescriptionExpanded
      ensures selectedMovie == old(selectedMovie) && isTvShow == old(isTvShow)
    {
      movieDetails := EmptyDetails;
      isDescriptionExpanded := false;
    }

    /** `handleMovieClick(movie)`: opens the modal on movie and starts the detail fetch. */
    method HandleMovieClick(movie: Item) returns (request: DetailRequest)
      modifies this
      ensures selectedMovie == Some(movie) && movieDetails == EmptyDetails && !isDescriptionExpanded
      ensures isTvShow == IsTvItem(movie)
      ensures request == DetailRequest(movie.id, isTvShow)
    {
      selectedMovie := Some(movie);
      ResetMovieDetails();
      var isTv := IsTvItem(movie);
      isTvShow := isTv;
      request := DetailRequest(movie.id, isTv);
    }

    /** The completion of `fetchMovieDetails(id, isTv)`. */
    method ReceiveMovieDetails(isTv: bool, primaryOk: bool, credits: Response<Credits>,
                               videos: Response<Page<Video>>, providers: Response<ProvidersBody>)
      modifies this
      ensures movieDetails == FetchMovieDetails(isTv, primaryOk, credits, videos, providers)
      ensures selectedMovie == old(selectedMovie) && isTvShow == old(isTvShow)
      ensures isDescriptionExpanded == old(isDescriptionExpanded)
    {
      movieDetails := FetchMovieDetails(isTv, primaryOk, credits, videos, providers);
    }

    /** `closeModal()` */
    method CloseModal()
      modifies this
      ensures selectedMovie == None && movieDetails == EmptyDetails && !isDescriptionExpanded
      ensures isTvShow == old(isTvShow)
    {
      selectedMovie := None;
      ResetMovieDetails();
    }

    /** `toggleDescription()` */
    method ToggleDescription()
      modifies this
      ensures isDescriptionExpanded == !old(isDescriptionExpanded)
      ensures selectedMovie == old(selectedMovie) && movieDetails == old(movieDetails) && isTvShow == old(isTvShow)
    {
      isDescriptionExpanded := !isDescriptionExpanded;
    }

    /** `handleRecommendationClick(recommendedMovie)`: closes the modal and fetches
        `/movie/{id}` for the recommended item's id (`lookup`, made even when the item is a
        tv show; `fetchMovie` answers it); when that response is ok, opens the modal on the
        fetched item as a movie and requests its details. */
    method HandleRecommendationClick(recommended: Item, fetchMovie: RawId -> Response<Item>)
      returns (lookup: RawId, request: Option<DetailRequest>)
      modifies this
      ensures lookup == recommended.id
      ensures fetchMovie(lookup).ok ==>
        && selectedMovie == Some(fetchMovie(lookup).body) && !isTvShow
        && movieDetails == EmptyDetails && !isDescriptionExpanded
        && request == Some(DetailRequest(fetchMovie(lookup).body.id, false))
      ensures !fetchMovie(lookup).ok ==>
        selectedMovie == None && movieDetails == EmptyDetails && !isDescriptionExpanded
        && isTvShow == old(isTvShow) && request == None
    {
      CloseModal();
      lookup := recommended.id;
      var response := fetchMovie(lookup);
      if !response.ok {
        return lookup, None;
      }
      selectedMovie := Some(response.body);
      ResetMovieDetails();
      isTvShow := false;
      request := Some(DetailRequest(response.body.id, false));
    }
  }
}
