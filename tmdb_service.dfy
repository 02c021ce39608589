/** src/services/tmdbService.js: the pure helpers (`tmdbUtils`, `imageUtils`,
    `youtubeUtils`) and `getContentDetails`, the detail fetch that validates the id,
    normalises the kind, retries once with the opposite kind on a 404 and flattens the
    appended sub-objects. The HTTP client is a parameter (`server`). */
module TmdbService {
  import opened Js
  import opened Payloads

  datatype Kind = Movie | Tv {
    function Name(): string {
      if Movie? then "movie" else "tv"
    }

    function Opposite(): (k: Kind)
      ensures k != this
    {
      if Movie? then Tv else Movie
    }
  }

  /** `contentType === 'tv' ? 'tv' : 'movie'`: every other value, `undefined` included,
      is a movie. */
  function NormaliseKind(contentType: string): Kind {
    if contentType == "tv" then Tv else Movie
  }

  // ---------------------------------------------------------------------------
  // formatRuntime

  /** Division truncated toward zero, the quotient JavaScript's `%` pairs with. */
  function TruncatedQuotient(a: int, b: int): int
    requires b > 0
  {
    if a >= 0 then a / b else -((-a) / b)
  }

  /** JavaScript's `a % b`: the remainder takes the sign of the dividend. */
  function JsRemainder(a: int, b: int): (r: int)
    requires b > 0
    ensures -b < r < b
    ensures a >= 0 ==> r >= 0
    ensures a < 0 ==> r <= 0
    ensures a == TruncatedQuotient(a, b) * b + r
  {
    if a >= 0 then a % b
    else
      var q, m := (-a) / b, (-a) % b;
      assert -a == q * b + m;
      -m
  }

  /** The two shapes of text `formatRuntime` produces, before the numbers are printed. */
  datatype Runtime = NotAvailable | MinutesOnly(minutes: int) | HoursAndMinutes(hours: int, minutes: int)

  /** `formatRuntime(minutes)` for a missing or integer-valued argument:
      `Math.floor(minutes / 60)` hours and `minutes % 60` minutes, hours omitted when not positive. */
  function FormatRuntime(minutes: Option<int>): (r: Runtime)
    ensures r == NotAvailable <==> minutes.None? || minutes.value == 0
    ensures minutes.Some? && minutes.value > 0 ==>
      && (r.HoursAndMinutes? <==> minutes.value >= 60)
      && (r.HoursAndMinutes? ==> r.hours >= 1 && r.hours * 60 + r.minutes == minutes.value && 0 <= r.minutes < 60)
      && (r.MinutesOnly? ==> r.minutes == minutes.value)
    ensures minutes.Some? && minutes.value < 0 ==>
      r.MinutesOnly? && -60 < r.minutes <= 0 && (minutes.value - r.minutes) % 60 == 0
  {
    if minutes.None? || minutes.value == 0 then NotAvailable
    else
      var m := minutes.value;
      var hours := m / 60;  // Math.floor: Dafny's division by a positive divisor rounds down
      var rest := JsRemainder(m, 60);
      if hours > 0 then HoursAndMinutes(hours, rest) else MinutesOnly(rest)
  }

  /** The text `formatRuntime` returns: `"N/A"`, `"${m}m"` or `"${h}h ${m}m"`. */
  function FormatRuntimeText(minutes: Option<int>): (r: string)
    ensures r == "N/A" <==> minutes.None? || minutes.value == 0
    ensures r != "N/A" ==> |r| > 0 && r[|r| - 1] == 'm'
    ensures FormatRuntime(minutes).MinutesOnly? ==> r == IntToString(FormatRuntime(minutes).minutes) + "m"
    ensures FormatRuntime(minutes).HoursAndMinutes? ==>
      r == IntToString(FormatRuntime(minutes).hours) + "h " + IntToString(FormatRuntime(minutes).minutes) + "m"
  {
    assert "N/A"[2] == 'A';
    match FormatRuntime(minutes)
    case NotAvailable => "N/A"
    case MinutesOnly(m) =>
      var t := IntToString(m) + "m";
      assert t[|t| - 1] == 'm';
      t
    case HoursAndMinutes(h, m) =>
      var t := IntToString(h) + "h " + IntToString(m) + "m";
      assert t[|t| - 1] == 'm';
      t
  }

  /** Reading the text of a positive runtime back: the digits before "m" (and before "h ")
      are decimal numbers, and hours * 60 + minutes gives the runtime again. */
  lemma FormatRuntimeTextReadsBack(m: int)
    requires m > 0
    ensures var r := FormatRuntimeText(Some(m));
      && (m < 60 ==> r == NatToDecimal(m) + "m" && DecimalValue(r[..|r| - 1]) == m)
      && (m >= 60 ==>
            var hs, ms := NatToDecimal(m / 60), NatToDecimal(m % 60);
            && r == hs + "h " + ms + "m"
            && DecimalValue(hs) * 60 + DecimalValue(ms) == m && DecimalValue(ms) < 60)
  {
    var r := FormatRuntimeText(Some(m));
    if m < 60 {
      assert r[..|r| - 1] == NatToDecimal(m);
      DecimalRoundTrip(m);
    } else {
      DecimalRoundTrip(m / 60);
      DecimalRoundTrip(m % 60);
    }
  }

  // ---------------------------------------------------------------------------
  // getTrailer, getDirector, getMainCast

  predicate IsYouTubeTrailer(v: Video) {
    v.videoType == "Trailer" && v.site == "YouTube"
  }

  /** `getTrailer(videos)`: the first YouTube trailer, else the first video; nothing when
      `videos` or `videos.results` is missing. */
  function GetTrailer(videos: Option<Page<Video>>): (r: Option<Video>)
    ensures videos.None? || videos.value.results.None? ==> r.None?
    ensures videos.Some? && videos.value.results.Some? ==>
      var rs := videos.value.results.value;
      && (forall i :: FirstWhere(rs, IsYouTubeTrailer, i) ==> r == Some(rs[i]))
      && ((forall i :: 0 <= i < |rs| ==> !IsYouTubeTrailer(rs[i])) ==>
            r == if rs == [] then None else Some(rs[0]))
  {
    if videos.None? || videos.value.results.None? then None
    else
      var rs := videos.value.results.value;
      match Find(rs, IsYouTubeTrailer)
      case Some(v) => Some(v)
      case None => if rs == [] then None else Some(rs[0])
  }

  predicate IsDirector(c: CrewMember) {
    c.job == "Director"
  }

  /** `getDirector(credits)`: the name of the first crew member whose job is "Director". */
  function GetDirector(credits: Option<Credits>): (r: string)
    ensures credits.None? || credits.value.crew.None? ==> r == "N/A"
    ensures credits.Some? && credits.value.crew.Some? ==>
      var cs := credits.value.crew.value;
      && (forall i :: FirstWhere(cs, IsDirector, i) ==> r == cs[i].name)
      && ((forall i :: 0 <= i < |cs| ==> !IsDirector(cs[i])) ==> r == "N/A")
  {
    if credits.None? || credits.value.crew.None? then "N/A"
    else match Find(credits.value.crew.value, IsDirector)
      case Some(d) => d.name
      case None => "N/A"
  }

  const DefaultCastLimit := 5

  /** `getMainCast(credits, limit)`: `cast.slice(0, limit)`. */
  function GetMainCast(credits: Option<Credits>, limit: int := DefaultCastLimit): (r: seq<CastMember>)
    ensures credits.None? || credits.value.cast.None? ==> r == []
    ensures credits.Some? && credits.value.cast.Some? && limit >= 0 ==>
      var cs := credits.value.cast.value;
      |r| == Min(limit, |cs|) && r == cs[..|r|]
    ensures credits.Some? && credits.value.cast.Some? && limit < 0 ==>
      var cs := credits.value.cast.value;
      |r| == Max(0, |cs| + limit) && r == cs[..|r|]
  {
    if credits.None? || credits.value.cast.None? then [] else SliceTo(credits.value.cast.value, limit)
  }

  // ---------------------------------------------------------------------------
  // getGenreName

  const MovieGenreTable: map<int, string> := map[
    28 := "Action", 12 := "Adventure", 16 := "Animation", 35 := "Comedy",
    80 := "Crime", 99 := "Documentary", 18 := "Drama", 10751 := "Family",
    14 := "Fantasy", 36 := "History", 27 := "Horror", 10402 := "Music",
    9648 := "Mystery", 10749 := "Romance", 878 := "Science Fiction",
    10770 := "TV Movie", 53 := "Thriller", 10752 := "War", 37 := "Western"]

  const TvGenreTable: map<int, string> := map[
    10759 := "Action & Adventure", 16 := "Animation", 35 := "Comedy",
    80 := "Crime", 99 := "Documentary", 18 := "Drama", 10751 := "Family",
    10762 := "Kids", 9648 := "Mystery", 10763 := "News", 10764 := "Reality",
    10765 := "Sci-Fi & Fantasy", 10766 := "Soap", 10767 := "Talk",
    10768 := "War & Politics", 37 := "Western"]

  /** The tv table for `contentType === 'tv'`, the movie table for anything else. */
  function GenreTable(contentType: string): map<int, string> {
    if contentType == "tv" then TvGenreTable else MovieGenreTable
  }

  /** `getGenreName(genreId, contentType)`: `genres[genreId] || 'Unknown'`. */
  function GetGenreName(genreId: int, contentType: string := "movie"): (r: string)
    ensures genreId in GenreTable(contentType) ==> r == GenreTable(contentType)[genreId]
    ensures r == "Unknown" <==> genreId !in GenreTable(contentType)
    ensures r != ""
  {
    var genres := GenreTable(contentType);
    if genreId in genres && genres[genreId] != "" then genres[genreId] else "Unknown"
  }

  // ---------------------------------------------------------------------------
  // imageUtils and youtubeUtils

  const ImageBaseUrl := "https://image.tmdb.org/t/p"
  const PosterPlaceholder := "/placeholder-poster.jpg"
  const BackdropPlaceholder := "/placeholder-backdrop.jpg"
  const ProfilePlaceholder := "/placeholder-profile.jpg"
  const YouTubeWatchBaseUrl := "https://www.youtube.com/watch"
  const YouTubeEmbedBaseUrl := "https://www.youtube.com/embed"
  const YouTubeThumbnailBaseUrl := "https://img.youtube.com/vi"

  /** The middle of s when s starts with prefix and ends with suffix. */
  function StripAffixes(s: string, prefix: string, suffix: string): (r: Option<string>)
    ensures r.Some? ==> s == prefix + r.value + suffix
  {
    if |prefix| + |suffix| <= |s| && s[..|prefix|] == prefix && s[|s| - |suffix|..] == suffix
    then Some(s[|prefix|..|s| - |suffix|])
    else None
  }

  lemma StripAffixesOf(prefix: string, middle: string, suffix: string)
    ensures StripAffixes(prefix + middle + suffix, prefix, suffix) == Some(middle)
  {
    var s := prefix + middle + suffix;
    assert s[..|prefix|] == prefix;
    assert s[|s| - |suffix|..] == suffix;
    assert s[|prefix|..|s| - |suffix|] == middle;
  }

  /** The image path inside a CDN URL of the given size. */
  function ImagePathOf(url: string, size: string): Option<string> {
    StripAffixes(url, ImageBaseUrl + "/" + size, "")
  }

  /** `${IMAGE_BASE_URL}/${size}${path}` for a truthy path, else the placeholder. */
  function ImageUrl(path: JsStr, size: string, placeholder: string): (r: string)
    ensures path.Truthy() ==> ImagePathOf(r, size) == Some(path.s)
    ensures !path.Truthy() ==> r == placeholder
  {
    if path.Truthy() then
      StripAffixesOf(ImageBaseUrl + "/" + size, path.s, "");
      assert ImageBaseUrl + "/" + size + path.s + "" == ImageBaseUrl + "/" + size + path.s;
      ImageBaseUrl + "/" + size + path.s
    else placeholder
  }

  /** A placeholder is never taken for a CDN URL: placeholders start with '/'. */
  lemma PlaceholderIsNotCdnUrl(placeholder: string, size: string)
    requires |placeholder| > 0 && placeholder[0] == '/'
    ensures ImagePathOf(placeholder, size) == None
  {
    var prefix := ImageBaseUrl + "/" + size;
    assert prefix[0] == 'h';
  }

  function GetPosterUrl(path: JsStr, size: string := "w500"): (r: string)
    ensures path.Truthy() ==> ImagePathOf(r, size) == Some(path.s)
    ensures !path.Truthy() ==> r == PosterPlaceholder
  {
    ImageUrl(path, size, PosterPlaceholder)
  }

  function GetBackdropUrl(path: JsStr, size: string := "w1280"): (r: string)
    ensures path.Truthy() ==> ImagePathOf(r, size) == Some(path.s)
    ensures !path.Truthy() ==> r == BackdropPlaceholder
  {
    ImageUrl(path, size, BackdropPlaceholder)
  }

  function GetProfileUrl(path: JsStr, size: string := "w185"): (r: string)
    ensures path.Truthy() ==> ImagePathOf(r, size) == Some(path.s)
    ensures !path.Truthy() ==> r == ProfilePlaceholder
  {
    ImageUrl(path, size, ProfilePlaceholder)
  }

  /** `getOriginalUrl(path)`: the full-size image, or null without a path. */
  function GetOriginalUrl(path: JsStr): (r: Option<string>)
    ensures r.Some? <==> path.Truthy()
    ensures r.Some? ==> ImagePathOf(r.value, "original") == Some(path.s)
  {
    if path.Truthy() then Some(ImageUrl(path, "original", "")) else None
  }

  function GetWatchUrl(videoKey: JsStr): (r: Option<string>)
    ensures r.Some? <==> videoKey.Truthy()
    ensures r.Some? ==> StripAffixes(r.value, YouTubeWatchBaseUrl + "?v=", "") == Some(videoKey.s)
  {
    if videoKey.Truthy() then
      StripAffixesOf(YouTubeWatchBaseUrl + "?v=", videoKey.s, "");
      assert YouTubeWatchBaseUrl + "?v=" + videoKey.s + "" == YouTubeWatchBaseUrl + "?v=" + videoKey.s;
      Some(YouTubeWatchBaseUrl + "?v=" + videoKey.s)
    else None
  }

  function GetEmbedUrl(videoKey: JsStr): (r: Option<string>)
    ensures r.Some? <==> videoKey.Truthy()
    ensures r.Some? ==> StripAffixes(r.value, YouTubeEmbedBaseUrl + "/", "") == Some(videoKey.s)
  {
    if videoKey.Truthy() then
      StripAffixesOf(YouTubeEmbedBaseUrl + "/", videoKey.s, "");
      assert YouTubeEmbedBaseUrl + "/" + videoKey.s + "" == YouTubeEmbedBaseUrl + "/" + videoKey.s;
      Some(YouTubeEmbedBaseUrl + "/" + videoKey.s)
    else None
  }

  function GetThumbnailUrl(videoKey: JsStr, quality: string := "maxresdefault"): (r: Option<string>)
    ensures r.Some? <==> videoKey.Truthy()
    ensures r.Some? ==>
      StripAffixes(r.value, YouTubeThumbnailBaseUrl + "/", "/" + quality + ".jpg") == Some(videoKey.s)
  {
    if videoKey.Truthy() then
      var url := YouTubeThumbnailBaseUrl + "/" + videoKey.s + "/" + quality + ".jpg";
      StripAffixesOf(YouTubeThumbnailBaseUrl + "/", videoKey.s, "/" + quality + ".jpg");
      assert url == YouTubeThumbnailBaseUrl + "/" + videoKey.s + ("/" + quality + ".jpg");
      Some(url)
    else None
  }

  // ---------------------------------------------------------------------------
  // getContentDetails

  /** What a rejected request or a thrown Error carries: its message and, for an HTTP
      error, `error.response.status`. */
  datatype JsError = JsError(message: string, status: Option<int>)

  /** `GET /{kind}/{id}?append_to_response=credits,videos,similar,reviews,images` */
  datatype Request = Request(kind: Kind, id: string)

  /** The HTTP client: the response (or rejection) each request would get. A table rather
      than a function, so that what it answers does not depend on the heap. */
  type Server = server: imap<Request, Result<DetailPayload, JsError>> | forall r :: r in server
    ghost witness imap r: Request | true :: Err(JsError("", None))

  const InvalidIdError := JsError("Invalid content ID provided", None)

  function InvalidFormatError(validId: string): JsError {
    JsError("Invalid content ID format: " + validId, None)
  }

  function NotFoundInBothError(validId: string): JsError {
    JsError("Content with ID " + validId + " not found in both movie and TV databases", None)
  }

  /** `!contentId || contentId === 'undefined' || contentId === 'null'` */
  predicate IsInvalidIdValue(contentId: RawId) {
    !contentId.Truthy() || contentId == Text("undefined") || contentId == Text("null")
  }

  /** `String(contentId)` */
  function IdText(contentId: RawId): string {
    match contentId
    case Missing => "undefined"
    case Number(n) => IntToString(n)
    case Text(s) => s
  }

  /** The ids getContentDetails requests: a positive number, or a string that is all digits
      once surrounding whitespace is removed. */
  predicate AcceptableId(contentId: RawId) {
    match contentId
    case Missing => false
    case Number(n) => n > 0
    case Text(s) => AllDigits(Trim(s))
  }

  lemma TrimUnchanged(s: string)
    requires s != [] ==> !IsWhitespace(s[0]) && !IsWhitespace(s[|s| - 1])
    ensures Trim(s) == s
  {
  }

  /** `String(n)` has no surrounding whitespace, and is all digits exactly for n >= 0. */
  lemma NumberTextTrimmed(n: int)
    ensures Trim(IntToString(n)) == IntToString(n)
    ensures AllDigits(IntToString(n)) <==> n >= 0
  {
    var t := IntToString(n);
    if n >= 0 {
      assert IsDigit(t[0]) && IsDigit(t[|t| - 1]);
    } else {
      var d := NatToDecimal(-n);
      assert t == "-" + d;
      assert t[|t| - 1] == d[|d| - 1];
    }
    TrimUnchanged(t);
  }

  /** The validation at the top of getContentDetails: `String(contentId).trim()` must match /^\d+$/. */
  function ValidateId(contentId: RawId): (r: Result<string, JsError>)
    ensures r.Ok? <==> AcceptableId(contentId)
    ensures r.Ok? ==> AllDigits(r.value) && r.value == Trim(IdText(contentId))
    ensures r.Err? ==> r.error.status.None?
    ensures IsInvalidIdValue(contentId) ==> r == Err(InvalidIdError)
    ensures !IsInvalidIdValue(contentId) && r.Err? ==> r.error == InvalidFormatError(Trim(IdText(contentId)))
  {
    if IsInvalidIdValue(contentId) then
      assert !AcceptableId(contentId) by {
        if contentId.Text? && contentId.s in {"undefined", "null"} {
          TrimUnchanged(contentId.s);
          assert !IsDigit(contentId.s[0]);
        }
      }
      Err(InvalidIdError)
    else
      var validId := Trim(IdText(contentId));
      assert contentId.Number? ==> validId == IdText(contentId) && (AllDigits(validId) <==> contentId.n >= 0) by {
        if contentId.Number? {
          NumberTextTrimmed(contentId.n);
        }
      }
      if AllDigits(validId) then Ok(validId) else Err(InvalidFormatError(validId))
  }

  /** `{...data, cast: data.credits?.cast || [], crew: ..., videos: data.videos?.results || [], ...}` */
  function Normalise(data: DetailPayload): (d: Detail)
    ensures d.data == data
    ensures d.cast == if data.credits.Some? && data.credits.value.cast.Some? then data.credits.value.cast.value else []
    ensures d.crew == if data.credits.Some? && data.credits.value.crew.Some? then data.credits.value.crew.value else []
    ensures d.videos == ResultsOr(data.videos) && d.similar == ResultsOr(data.similar) && d.reviews == ResultsOr(data.reviews)
  {
    var cast := if data.credits.Some? then data.credits.value.cast.GetOr([]) else [];
    var crew := if data.credits.Some? then data.credits.value.crew.GetOr([]) else [];
    Detail(data, cast, crew, ResultsOr(data.videos), ResultsOr(data.similar), ResultsOr(data.reviews))
  }

  /** The first request `getContentDetails` makes for an accepted id: the normalised kind
      and the trimmed id text. */
  function FirstRequest(contentId: RawId, contentType: string): Request
    requires AcceptableId(contentId)
  {
    Request(NormaliseKind(contentType), ValidateId(contentId).value)
  }

  /** What follows the first request: a second one, for the opposite kind and the same id,
      exactly when the first was rejected with status 404; the response to the last
      request made decides the outcome, ok exactly when that response is, and then its
      normalised payload. A failure after one request passes that response's error on; a
      failure after the retry is "not found in both". */
  ghost predicate RetryAndOutcome(server: Server, requests: seq<Request>, result: Result<Detail, JsError>) {
    && 1 <= |requests| <= 2
    && (|requests| == 2 <==> server[requests[0]].Err? && server[requests[0]].error.status == Some(404))
    && (|requests| == 2 ==> requests[1] == Request(requests[0].kind.Opposite(), requests[0].id))
    && (result.Ok? <==> server[requests[|requests| - 1]].Ok?)
    && (result.Ok? ==> result.value == Normalise(server[requests[|requests| - 1]].value))
    && (|requests| == 1 && result.Err? ==> result.error == server[requests[0]].error)
    && (|requests| == 2 && result.Err? ==> result.error == NotFoundInBothError(requests[0].id))
  }

  /** `tmdbService.getContentDetails(contentId, contentType)` against the HTTP client `server`.
      Returns the outcome and the requests issued, in order. */
  method GetContentDetails(contentId: RawId, contentType: string, server: Server)
    returns (result: Result<Detail, JsError>, requests: seq<Request>)
    ensures !AcceptableId(contentId) ==> requests == [] && result == Err(ValidateId(contentId).error)
    ensures AcceptableId(contentId) ==>
      && |requests| >= 1 && requests[0] == FirstRequest(contentId, contentType)
      && RetryAndOutcome(server, requests, result)
    ensures result.Err? ==> result.error.status != Some(404)
  {
    var validated := ValidateId(contentId);
    if validated.Err? {
      return Err(validated.error), [];
    }
    var validId := validated.value;
    var kind := NormaliseKind(contentType);
    var first := Request(kind, validId);
    assert first == FirstRequest(contentId, contentType);
    requests := [first];
    var response := server[first];
    if response.Ok? {
      return Ok(Normalise(response.value)), requests;
    }
    if response.error.status == Some(404) {
      var second := Request(kind.Opposite(), validId);
      requests := requests + [second];
      var retry := server[second];
      if retry.Ok? {
        result := Ok(Normalise(retry.value));
      } else {
        result := Err(NotFoundInBothError(validId));
      }
    } else {
      result := Err(response.error);
    }
  }
}
