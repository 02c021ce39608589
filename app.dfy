/** src/App.jsx: the browsing view. Its handlers set the query, genre, kind and page; its
    fetch effect picks one list endpoint from them, stores the results or an error, and
    schedules a bounded number of retries. */
module ListView {
  import opened Js
  import opened Payloads

  // ---------------------------------------------------------------------------
  // The endpoint decision

  const PopularitySort := "popularity.desc"

  /** A list request: the path and the parameters `buildApiUrl` is given. The query is the
      raw search text; its percent-encoding is left to the URL builder. */
  datatype ListRequest = ListRequest(
    path: string,
    query: Option<string>,
    withGenres: Option<int>,
    sortBy: Option<string>,
    page: int)

  /** `if (selectedGenre)`: a selected genre whose id is not 0. */
  predicate GenreSelected(genre: Option<int>) {
    genre.Some? && genre.value != 0
  }

  /** The request for the current view: a non-empty query searches, else a selected genre
      discovers that genre, else the kind is discovered by popularity; the page is always
      sent, and the kind picks the `movie` or `tv` path. */
  function ListEndpoint(isTvShow: bool, searchQuery: string, selectedGenre: Option<int>, page: int): (r: ListRequest)
    ensures r.page == page
    ensures var kind := if isTvShow then "tv" else "movie";
      r.path == (if searchQuery != "" then "/search/" else "/discover/") + kind
    ensures r.query.Some? <==> searchQuery != ""
    ensures r.query.Some? ==> r.query.value == searchQuery
    ensures r.withGenres.Some? <==> searchQuery == "" && GenreSelected(selectedGenre)
    ensures r.withGenres.Some? ==> r.withGenres == selectedGenre
    ensures r.sortBy.Some? <==> searchQuery == "" && !GenreSelected(selectedGenre)
    ensures r.sortBy.Some? ==> r.sortBy.value == PopularitySort
  {
    var kind := if isTvShow then "tv" else "movie";
    if searchQuery != "" then ListRequest("/search/" + kind, Some(searchQuery), None, None, page)
    else if GenreSelected(selectedGenre) then ListRequest("/discover/" + kind, None, selectedGenre, None, page)
    else ListRequest("/discover/" + kind, None, None, Some(PopularitySort), page)
  }

  /** The query takes precedence: with a non-empty query the selected genre is ignored. */
  lemma QueryOverridesGenre(isTvShow: bool, searchQuery: string, genre: Option<int>, page: int)
    requires searchQuery != ""
    ensures ListEndpoint(isTvShow, searchQuery, genre, page) == ListEndpoint(isTvShow, searchQuery, None, page)
  {
  }

  // ---------------------------------------------------------------------------
  // Responses

  /** How a list request ends: an HTTP error status, a parsed body, or a thrown error
      (network failure, unparsable JSON) with its message. */
  datatype ListResponse =
    | HttpFailure(status: int, statusText: string)
    | Body(success: Option<bool>, statusMessage: JsStr, results: Option<seq<Item>>)
    | Thrown(message: string)

  const ApiErrorFallback := "API returned an error"
  const FailurePrefix := "Failed to load content: "
  const MissingKeyError := "API configuration error. Please check environment variables."

  /** The results a response yields, or the message of the error the try block throws:
      a non-ok status, or a body whose `success` is exactly false even on a 2xx status. */
  function ResponseOutcome(resp: ListResponse): (r: Result<seq<Item>, string>)
    ensures resp.HttpFailure? ==> r == Err("HTTP " + IntToString(resp.status) + ": " + resp.statusText)
    ensures resp.Body? && resp.success == Some(false) ==>
      r == Err(if resp.statusMessage.Truthy() then resp.statusMessage.s else ApiErrorFallback)
    ensures resp.Body? && resp.success != Some(false) ==> r == Ok(resp.results.GetOr([]))
    ensures resp.Thrown? ==> r == Err(resp.message)
  {
    match resp
    case HttpFailure(status, statusText) => Err("HTTP " + IntToString(status) + ": " + statusText)
    case Body(success, statusMessage, results) =>
      if success == Some(false) then Err(Or(statusMessage, Str(ApiErrorFallback)).s)
      else Ok(results.GetOr([]))
    case Thrown(message) => Err(message)
  }

  // ---------------------------------------------------------------------------
  // Retries

  const MaxRetries := 3

  /** The delay of the retry a failure schedules, or None once three retries have been
      counted: `1000 * (retryCount + 1)` milliseconds. */
  function RetryDelay(retryCount: nat): (r: Option<nat>)
    ensures r.Some? <==> retryCount < MaxRetries
    ensures r.Some? ==> r.value == 1000 * (retryCount + 1)
  {
    if retryCount < MaxRetries then Some(1000 * (retryCount + 1)) else None
  }

  /** The delays of the retries when every attempt from `retryCount` on fails and each
      retry is made by its timer. */
  function ConsecutiveFailureDelays(retryCount: nat): seq<nat>
    decreases MaxRetries - retryCount
  {
    match RetryDelay(retryCount)
    case None => []
    case Some(d) => [d] + ConsecutiveFailureDelays(retryCount + 1)
  }

  /** From any count below three there are exactly 3 - count more retries, and the delay
      grows by the same 1000 ms each time: the backoff is linear. */
  lemma {:induction false} ConsecutiveFailureDelaysLinear(retryCount: nat)
    ensures var ds := ConsecutiveFailureDelays(retryCount);
      && |ds| == (if retryCount < MaxRetries then MaxRetries - retryCount else 0)
      && (forall i :: 0 <= i < |ds| ==> ds[i] == 1000 * (retryCount + i + 1))
    decreases MaxRetries - retryCount
  {
    if retryCount < MaxRetries {
      ConsecutiveFailureDelaysLinear(retryCount + 1);
      var ds := ConsecutiveFailureDelays(retryCount);
      var rest := ConsecutiveFailureDelays(retryCount + 1);
      assert ds == [1000 * (retryCount + 1)] + rest;
      forall i | 1 <= i < |ds|
        ensures ds[i] == 1000 * (retryCount + i + 1)
      {
        assert ds[i] == rest[i - 1];
      }
    }
  }

  /** A fresh view that keeps failing retries after 1, 2 and 3 seconds, then stops. */
  lemma FreshViewRetryDelays()
    ensures ConsecutiveFailureDelays(0) == [1000, 2000, 3000]
  {
    ConsecutiveFailureDelaysLinear(0);
  }

  // ---------------------------------------------------------------------------
  // The component state

  class ListView {
    var searchQuery: string
    var movies: seq<Item>
    var page: int
    var selectedGenre: Option<int>
    var isLoading: bool
    var isTvShow: bool
    var isGenrePanelOpen: bool
    var error: Option<string>
    var retryCount: nat

    /** The page is never below 1. */
    predicate Valid()
      reads this
    {
      page >= 1
    }

    constructor ()
      ensures Valid()
      ensures searchQuery == "" && movies == [] && page == 1 && selectedGenre == None
      ensures !isLoading && !isTvShow && !isGenrePanelOpen && error == None && retryCount == 0
    {
      searchQuery := "";
      movies := [];
      page := 1;
      selectedGenre := None;
      isLoading := false;
      isTvShow := false;
      isGenrePanelOpen := false;
      error := None;
      retryCount := 0;
    }

    /** `clearSearch()` */
    method ClearSearch()
      modifies this
      ensures Valid()
      ensures searchQuery == "" && selectedGenre == None && page == 1
      ensures movies == old(movies) && isTvShow == old(isTvShow) && isGenrePanelOpen == old(isGenrePanelOpen)
      ensures isLoading == old(isLoading) && error == old(error) && retryCount == old(retryCount)
    {
      searchQuery := "";
      selectedGenre := None;
      page := 1;
    }

    /** `handleSearch(query)` */
    method HandleSearch(query: string)
      modifies this
      ensures Valid()
      ensures searchQuery == query && selectedGenre == None && page == 1
      ensures movies == old(movies) && isTvShow == old(isTvShow) && isGenrePanelOpen == old(isGenrePanelOpen)
      ensures isLoading == old(isLoading) && error == old(error) && retryCount == old(retryCount)
    {
      searchQuery := query;
      selectedGenre := None;
      page := 1;
    }

    /** `handleSelectGenre(genreId, isTv)`: also closes the genre panel. */
    method HandleSelectGenre(genreId: int, isTv: bool)
      modifies this
      ensures Valid()
      ensures selectedGenre == Some(genreId) && isTvShow == isTv && page == 1 && searchQuery == ""
      ensures !isGenrePanelOpen
      ensures movies == old(movies) && isLoading == old(isLoading) && error == old(error) && retryCount == old(retryCount)
    {
      selectedGenre := Some(genreId);
      isTvShow := isTv;
      page := 1;
      searchQuery := "";
      isGenrePanelOpen := false;
    }

    /** `handlePagination(direction)`: the page moves by `direction` but not below 1. */
    method HandlePagination(direction: int)
      requires Valid()
      modifies this
      ensures Valid()
      ensures page == Max(1, old(page) + direction)
      ensures old(page) + direction >= 1 ==> page == old(page) + direction
      ensures searchQuery == old(searchQuery) && selectedGenre == old(selectedGenre) && isTvShow == old(isTvShow)
      ensures movies == old(movies) && isLoading == old(isLoading) && error == old(error)
      ensures retryCount == old(retryCount) && isGenrePanelOpen == old(isGenrePanelOpen)
    {
      page := Max(1, page + direction);
    }

    /** `toggleGenrePanel()` */
    method ToggleGenrePanel()
      modifies this
      ensures isGenrePanelOpen == !old(isGenrePanelOpen)
      ensures page == old(page) && searchQuery == old(searchQuery) && selectedGenre == old(selectedGenre)
      ensures isTvShow == old(isTvShow) && movies == old(movies) && error == old(error) && retryCount == old(retryCount)
      ensures isLoading == old(isLoading)
    {
      isGenrePanelOpen := !isGenrePanelOpen;
    }

    /** `fetchMoviesOrTvShows()`: without an API key it only reports the configuration
        error. Otherwise it requests the endpoint for the current view; on success the
        results replace the list and the retry count goes back to 0; on failure the error
        is shown and, while fewer than three retries were counted, a retry is scheduled
        after `retryDelay` milliseconds. Loading ends in every case. */
    method FetchMoviesOrTvShows(apiKeyPresent: bool, respond: ListRequest -> ListResponse)
      returns (request: Option<ListRequest>, retryDelay: Option<nat>)
      requires Valid()
      modifies this
      ensures Valid() && !isLoading
      ensures page == old(page) && searchQuery == old(searchQuery) && selectedGenre == old(selectedGenre)
      ensures isTvShow == old(isTvShow) && isGenrePanelOpen == old(isGenrePanelOpen)
      ensures !apiKeyPresent ==>
        && request == None && retryDelay == None && error == Some(MissingKeyError)
        && movies == old(movies) && retryCount == old(retryCount)
      ensures apiKeyPresent ==>
        && request == Some(ListEndpoint(old(isTvShow), old(searchQuery), old(selectedGenre), old(page)))
        && var outcome := ResponseOutcome(respond(request.value));
        && (outcome.Ok? ==>
              movies == outcome.value && retryCount == 0 && error == None && retryDelay == None)
        && (outcome.Err? ==>
              && movies == old(movies) && retryCount == old(retryCount)
              && error == Some(FailurePrefix + outcome.error)
              && retryDelay == RetryDelay(old(retryCount)))
    {
      if !apiKeyPresent {
        error := Some(MissingKeyError);
        isLoading := false;
        return None, None;
      }
      isLoading := true;
      error := None;
      var req := ListEndpoint(isTvShow, searchQuery, selectedGenre, page);
      request := Some(req);
      match ResponseOutcome(respond(req)) {
        case Ok(results) =>
          movies := results;
          retryCount := 0;
          retryDelay := None;
        case Err(message) =>
          error := Some(FailurePrefix + message);
          retryDelay := RetryDelay(retryCount);
      }
      isLoading := false;
    }

    /** The scheduled retry firing: the count goes up by one, which re-runs the fetch. */
    method RetryTimerFired()
      modifies this
      ensures retryCount == old(retryCount) + 1
      ensures page == old(page) && searchQuery == old(searchQuery) && selectedGenre == old(selectedGenre)
      ensures isTvShow == old(isTvShow) && movies == old(movies) && error == old(error)
      ensures isLoading == old(isLoading) && isGenrePanelOpen == old(isGenrePanelOpen)
    {
      retryCount := retryCount + 1;
    }

    /** The Retry button is rendered with the error only while fewer than three retries
        were counted. */
    function RetryButtonShown(): (r: bool)
      reads this
      ensures r <==> error.Some? && error.value != "" && retryCount < MaxRetries
    {
      error.Some? && error.value != "" && retryCount < MaxRetries
    }

    /** A click on Retry: counted only when the button is there. */
    method ManualRetry()
      modifies this
      ensures old(RetryButtonShown()) ==> retryCount == old(retryCount) + 1
      ensures !old(RetryButtonShown()) ==> retryCount == old(retryCount)
      ensures page == old(page) && searchQuery == old(searchQuery) && selectedGenre == old(selectedGenre)
      ensures isTvShow == old(isTvShow) && movies == old(movies) && error == old(error)
      ensures isLoading == old(isLoading) && isGenrePanelOpen == old(isGenrePanelOpen)
    {
      if RetryButtonShown() {
        retryCount := retryCount + 1;
      }
    }
  }
}
