/** src/Components/MovieDetailsCard.jsx: the detail modal. Its fetch effect guards the id,
    calls the service's `getContentDetails` and turns a failure into one message; the
    rendered part picks a director, a main cast, a trailer and a runtime out of the
    normalised record and caps the genre, company and similar-item lists. */
module DetailsCard {
  import opened Js
  import opened Payloads
  import TmdbService

  // ---------------------------------------------------------------------------
  // Error messages

  const InvalidIdMessage := "Invalid content ID"
  const NotFoundMessage := "Content not found. This item may have been removed from the database."
  const GenericMessage := "Failed to load content details"
  /** The text shown when there is neither an error nor a record. */
  const NoContentMessage := "Content not found"

  /** The catch block: a 404 gives the not-found text, else the error's own message when it
      is non-empty, else the generic text. */
  function ErrorMessage(err: TmdbService.JsError): (r: string)
    ensures err.status == Some(404) ==> r == NotFoundMessage
    ensures err.status != Some(404) && err.message != "" ==> r == err.message
    ensures err.status != Some(404) && err.message == "" ==> r == GenericMessage
    ensures r != ""
  {
    if err.status == Some(404) then NotFoundMessage
    else if err.message != "" then err.message
    else GenericMessage
  }

  // ---------------------------------------------------------------------------
  // handleSimilarItemClick

  /** The kind passed on for a clicked similar item. */
  function SimilarItemKind(item: Item): (r: string)
    ensures item.mediaType.Truthy() ==> r == item.mediaType.s
    ensures !item.mediaType.Truthy() ==>
      (r == "tv" <==> item.firstAirDate.Truthy() && !item.releaseDate.Truthy())
    ensures !item.mediaType.Truthy() ==> r == "tv" || r == "movie"
  {
    if item.mediaType.Truthy() then item.mediaType.s
    else if item.name.Truthy() && item.firstAirDate.Truthy() && !item.title.Truthy() && !item.releaseDate.Truthy() then "tv"
    else if item.firstAirDate.Truthy() && !item.releaseDate.Truthy() then "tv"
    else "movie"
  }

  /** `onContentClick(item.id, kind)`, made only when the parent passed a callback. */
  function SimilarItemClick(item: Item, hasCallback: bool): (r: Option<(RawId, string)>)
    ensures r.Some? <==> hasCallback
    ensures r.Some? ==> r.value == (item.id, SimilarItemKind(item))
  {
    if hasCallback then Some((item.id, SimilarItemKind(item))) else None
  }

  // ---------------------------------------------------------------------------
  // What the card shows of a record

  const MainCastCap := 6
  const GenreCap := 3
  const CompanyCap := 3
  const SimilarCap := 8

  predicate IsTrailerType(v: Video) {
    v.videoType == "Trailer"
  }

  /** `crew?.find((person) => person.job === "Director")` */
  function CardDirector(d: Detail): (r: Option<CrewMember>)
    ensures r.Some? ==> exists i :: FirstWhere(d.crew, TmdbService.IsDirector, i) && r.value == d.crew[i]
    ensures r.None? <==> forall i :: 0 <= i < |d.crew| ==> d.crew[i].job != "Director"
  {
    Find(d.crew, TmdbService.IsDirector)
  }

  /** `videos?.find((video) => video.type === "Trailer") || videos?.[0]`: the first
      Trailer-typed video whatever its site, else the first video. */
  function CardTrailer(d: Detail): (r: Option<Video>)
    ensures forall i :: FirstWhere(d.videos, IsTrailerType, i) ==> r == Some(d.videos[i])
    ensures (forall i :: 0 <= i < |d.videos| ==> !IsTrailerType(d.videos[i])) ==>
      r == if d.videos == [] then None else Some(d.videos[0])
  {
    match Find(d.videos, IsTrailerType)
    case Some(v) => Some(v)
    case None => if d.videos == [] then None else Some(d.videos[0])
  }

  /** `runtime || (episode_run_time && episode_run_time[0])`, as far as it is shown: the
      minutes of the runtime span, or None when the expression is falsy. */
  function DisplayRuntime(data: DetailPayload): (r: Option<int>)
    ensures data.runtime.Some? && data.runtime.value != 0 ==> r == data.runtime
    ensures (data.runtime.None? || data.runtime.value == 0) ==>
      (r.Some? <==> data.episodeRunTime.Some? && |data.episodeRunTime.value| > 0 && data.episodeRunTime.value[0] != 0)
    ensures r.Some? && (data.runtime.None? || data.runtime.value == 0) ==> r.value == data.episodeRunTime.value[0]
    ensures r.Some? ==> r.value != 0
  {
    if data.runtime.Some? && data.runtime.value != 0 then data.runtime
    else if data.episodeRunTime.Some? && |data.episodeRunTime.value| > 0 && data.episodeRunTime.value[0] != 0
    then Some(data.episodeRunTime.value[0])
    else None
  }

  /** The parts of a record the card renders. */
  datatype CardView = CardView(
    director: Option<CrewMember>,
    mainCast: seq<CastMember>,
    trailer: Option<Video>,
    runtime: Option<int>,
    genres: seq<Genre>,
    companies: seq<Company>,
    similar: seq<Item>)

  /** The rendered selection: each list is a prefix of the record's list, capped at 6 cast
      members, 3 genres, 3 production companies and 8 similar items. */
  function View(d: Detail): (v: CardView)
    ensures |v.mainCast| == Min(MainCastCap, |d.cast|) && v.mainCast == d.cast[..|v.mainCast|]
    ensures var gs := d.data.genres.GetOr([]);
      |v.genres| == Min(GenreCap, |gs|) && v.genres == gs[..|v.genres|]
    ensures var cs := d.data.productionCompanies.GetOr([]);
      |v.companies| == Min(CompanyCap, |cs|) && v.companies == cs[..|v.companies|]
    ensures |v.similar| == Min(SimilarCap, |d.similar|) && v.similar == d.similar[..|v.similar|]
    ensures v.director == CardDirector(d) && v.trailer == CardTrailer(d) && v.runtime == DisplayRuntime(d.data)
  {
    CardView(
      CardDirector(d),
      Take(d.cast, MainCastCap),
      CardTrailer(d),
      DisplayRuntime(d.data),
      Take(d.data.genres.GetOr([]), GenreCap),
      Take(d.data.productionCompanies.GetOr([]), CompanyCap),
      Take(d.similar, SimilarCap))
  }

  // ---------------------------------------------------------------------------
  // The card against the service helpers

  /** The card's director is the one `tmdbUtils.getDirector` names, read on the normalised
      record; a record with no director is shown without one where the helper says "N/A". */
  lemma DirectorAgreesWithService(p: DetailPayload)
    ensures TmdbService.GetDirector(p.credits) ==
      match CardDirector(TmdbService.Normalise(p))
      case Some(c) => c.name
      case None => "N/A"
  {
    var d := TmdbService.Normalise(p);
    match CardDirector(d)
    case Some(c) =>
      var i :| FirstWhere(d.crew, TmdbService.IsDirector, i) && c == d.crew[i];
    case None =>
  }

  /** The card's main cast is `tmdbUtils.getMainCast(credits, 6)`. */
  lemma MainCastAgreesWithService(p: DetailPayload)
    ensures View(TmdbService.Normalise(p)).mainCast == TmdbService.GetMainCast(p.credits, MainCastCap)
  {
    var d := TmdbService.Normalise(p);
    var a := View(d).mainCast;
    var b := TmdbService.GetMainCast(p.credits, MainCastCap);
    assert |a| == |b|;
  }

  /** When every Trailer-typed video is on YouTube, the card plays the video that
      `tmdbUtils.getTrailer` picks. */
  lemma TrailerAgreesWithService(p: DetailPayload)
    requires p.videos.Some? && p.videos.value.results.Some?
    requires var vs := p.videos.value.results.value;
      forall i :: 0 <= i < |vs| && IsTrailerType(vs[i]) ==> vs[i].site == "YouTube"
    ensures CardTrailer(TmdbService.Normalise(p)) == TmdbService.GetTrailer(p.videos)
  {
    var vs := p.videos.value.results.value;
    match FindIndex(vs, IsTrailerType)
    case Some(i) =>
      assert FirstWhere(vs, TmdbService.IsYouTubeTrailer, i);
    case None =>
      assert forall j :: 0 <= j < |vs| ==> !TmdbService.IsYouTubeTrailer(vs[j]);
  }

  /** Without that condition the two disagree: a Trailer-typed video hosted elsewhere ahead
      of a YouTube trailer is played by the card but skipped by the helper. */
  lemma TrailerDisagreesOffYouTube(other: Video, youTube: Video, p: DetailPayload)
    requires other.videoType == "Trailer" && other.site != "YouTube"
    requires TmdbService.IsYouTubeTrailer(youTube)
    requires p.videos == Some(Page(Some([other, youTube])))
    ensures CardTrailer(TmdbService.Normalise(p)) == Some(other)
    ensures TmdbService.GetTrailer(p.videos) == Some(youTube)
  {
    assert FirstWhere([other, youTube], TmdbService.IsYouTubeTrailer, 1);
  }

  // ---------------------------------------------------------------------------
  // The fetch effect

  /** What the modal shows: the loading state, an error text, or the record. */
  datatype Screen = Loading | Failed(message: string) | Shown(content: Detail)

  class DetailsCardView {
    var content: Option<Detail>
    var loading: bool
    var error: Option<string>

    constructor ()
      ensures content == None && loading && error == None
    {
      content := None;
      loading := true;
      error := None;
    }

    /** The branch the render takes: loading first, then `error || "Content not found"`
        when there is an error or no record, else the record. */
    function Screen(): (s: Screen)
      reads this
      ensures loading ==> s == Loading
      ensures !loading && error.Some? && error.value != "" ==> s == Failed(error.value)
      ensures !loading && (error.None? || error.value == "") && content.None? ==> s == Failed(NoContentMessage)
      ensures !loading && (error.None? || error.value == "") && content.Some? ==> s == Shown(content.value)
    {
      if loading then Loading
      else if error.Some? && error.value != "" then Failed(error.value)
      else if content.None? then Failed(NoContentMessage)
      else Shown(content.value)
    }

    /** `fetchContentDetails()`: an id that is falsy, "undefined" or "null" is refused without
        a request (`outcome` is None); otherwise `outcome` and `requests` are what the
        service's `getContentDetails` returned and issued, its record or error message
        lands in the state, and loading ends in every case. */
    method FetchContentDetails(contentId: RawId, contentType: string,
                               server: TmdbService.Server)
      returns (outcome: Option<Result<Detail, TmdbService.JsError>>, requests: seq<TmdbService.Request>)
      modifies this
      ensures !loading
      ensures outcome.None? <==> TmdbService.IsInvalidIdValue(contentId)
      ensures outcome.None? ==> requests == [] && error == Some(InvalidIdMessage) && content == old(content)
      ensures outcome.Some? && outcome.value.Ok? ==> content == Some(outcome.value.value) && error == None
      ensures outcome.Some? && outcome.value.Err? ==>
        && content == old(content) && error == Some(ErrorMessage(outcome.value.error))
        && outcome.value.error.status != Some(404)
      ensures outcome.Some? && !TmdbService.AcceptableId(contentId) ==>
        requests == [] && outcome.value == Err(TmdbService.ValidateId(contentId).error)
      ensures outcome.Some? && TmdbService.AcceptableId(contentId) ==>
        && |requests| >= 1 && requests[0] == TmdbService.FirstRequest(contentId, contentType)
        && TmdbService.RetryAndOutcome(server, requests, outcome.value)
    {
      if TmdbService.IsInvalidIdValue(contentId) {
        error := Some(InvalidIdMessage);
        loading := false;
        return None, [];
      }
      // The service is consulted first: `loading := true` and `error := null`, which the
      // component sets before awaiting it, are observable only while the request is in
      // flight, and this model describes the state once it has settled.
      var result;
      result, requests := TmdbService.GetContentDetails(contentId, contentType, server);
      if result.Ok? {
        content, error, loading := Some(result.value), None, false;
      } else {
        error, loading := Some(ErrorMessage(result.error)), false;
      }
      outcome := Some(result);
    }
  }
}
