/** src/context/AppContext.jsx: the application-wide store. `appReducer` maps a state and
    an action to a new state built by copying the old one and replacing one part; `search`
    dispatches a fixed sequence of actions around one search request. */
module AppState {
  import opened Js
  import opened Payloads

  /** The seven home-page lists held in the store. */
  datatype ListSlot =
    | PopularMovies | TrendingMovies | TopRatedMovies | UpcomingMovies
    | PopularTvShows | TrendingTvShows | TopRatedTvShows
  {
    /** The slot's key in `initialState` and in `loading`. */
    function Key(): string {
      match this
      case PopularMovies => "popularMovies"
      case TrendingMovies => "trendingMovies"
      case TopRatedMovies => "topRatedMovies"
      case UpcomingMovies => "upcomingMovies"
      case PopularTvShows => "popularTVShows"
      case TrendingTvShows => "trendingTVShows"
      case TopRatedTvShows => "topRatedTVShows"
    }

    /** Only these five slots have an APPEND_* action type. */
    predicate Appendable() {
      !TrendingTvShows? && !TopRatedTvShows?
    }
  }

  /** The image configuration the store keeps but never looks into. */
  datatype ImageConfig = ImageConfig(secureBaseUrl: string, posterSizes: seq<string>)

  datatype State = State(
    popularMovies: seq<Item>,
    trendingMovies: seq<Item>,
    topRatedMovies: seq<Item>,
    upcomingMovies: seq<Item>,
    popularTvShows: seq<Item>,
    trendingTvShows: seq<Item>,
    topRatedTvShows: seq<Item>,
    searchResults: seq<Item>,
    searchQuery: string,
    searchType: string,
    loading: map<string, bool>,
    selectedContent: Option<Item>,
    contentType: string,
    genres: map<string, seq<Genre>>,
    errors: map<string, string>,
    imageConfig: Option<ImageConfig>)
  {
    function List(slot: ListSlot): seq<Item> {
      match slot
      case PopularMovies => popularMovies
      case TrendingMovies => trendingMovies
      case TopRatedMovies => topRatedMovies
      case UpcomingMovies => upcomingMovies
      case PopularTvShows => popularTvShows
      case TrendingTvShows => trendingTvShows
      case TopRatedTvShows => topRatedTvShows
    }

    /** The state with one list replaced. */
    function WithList(slot: ListSlot, items: seq<Item>): (r: State)
      ensures r.List(slot) == items
      ensures forall other :: other != slot ==> r.List(other) == List(other)
      ensures r.searchResults == searchResults && r.searchQuery == searchQuery && r.searchType == searchType
      ensures r.loading == loading && r.selectedContent == selectedContent && r.contentType == contentType
      ensures r.genres == genres && r.errors == errors && r.imageConfig == imageConfig
    {
      match slot
      case PopularMovies => this.(popularMovies := items)
      case TrendingMovies => this.(trendingMovies := items)
      case TopRatedMovies => this.(topRatedMovies := items)
      case UpcomingMovies => this.(upcomingMovies := items)
      case PopularTvShows => this.(popularTvShows := items)
      case TrendingTvShows => this.(trendingTvShows := items)
      case TopRatedTvShows => this.(topRatedTvShows := items)
    }
  }

  const SearchKey := "search"
  const DetailsKey := "details"
  const LoadingKeys: set<string> := {
    "popularMovies", "trendingMovies", "topRatedMovies", "upcomingMovies",
    "popularTVShows", "trendingTVShows", "topRatedTVShows", SearchKey, DetailsKey}
  const GenreSlots: set<string> := {"movies", "tv"}

  /** `initialState`: every list empty, no query, multi-search, nothing loading, no
      selection, the movie kind, empty genre lists, no errors and no image configuration. */
  function Initial(): (s: State)
    ensures forall slot :: s.List(slot) == []
    ensures s.searchResults == [] && s.searchQuery == "" && s.searchType == "multi"
    ensures s.loading.Keys == LoadingKeys && forall k :: k in s.loading ==> !s.loading[k]
    ensures s.selectedContent == None && s.contentType == "movie"
    ensures s.genres.Keys == GenreSlots && forall k :: k in s.genres ==> s.genres[k] == []
    ensures s.errors == map[] && s.imageConfig == None
  {
    State(
      [], [], [], [], [], [], [], [], "", "multi",
      map k | k in LoadingKeys :: false,
      None, "movie",
      map k | k in GenreSlots :: [],
      map[], None)
  }

  /** The shape every reachable state keeps: a flag for each loading key of the initial
      state and a list for both genre slots. */
  predicate WellFormed(s: State) {
    LoadingKeys <= s.loading.Keys && GenreSlots <= s.genres.Keys
  }

  datatype Action =
    | SetLoading(key: string, value: bool)
    | SetList(slot: ListSlot, items: seq<Item>)
    | AppendList(slot: ListSlot, items: seq<Item>)
    | SetSearchResults(results: seq<Item>)
    | SetSearchQuery(query: string)
    | SetSearchType(searchType: string)
    | SetSelectedContent(content: Option<Item>)
    | SetContentType(contentType: string)
    | SetGenres(genreSlot: string, genres: seq<Genre>)
    | SetError(errorKey: string, error: string)
    | ClearError(clearedKey: string)
    | SetImageConfig(config: Option<ImageConfig>)
    | ClearSearch
    /** Any other `type`, including an APPEND_* for a slot that has none. */
    | Unknown(tag: string)

  /** `appReducer(state, action)`: a new state copied from the old one with one part
      replaced; of the seven home-page lists, only a SET_* or APPEND_* action touches one,
      and only the one it names. */
  function Reduce(s: State, a: Action): (r: State)
    ensures !a.SetList? && !a.AppendList? ==> forall slot :: r.List(slot) == s.List(slot)
    ensures a.SetList? || a.AppendList? ==> forall slot :: slot != a.slot ==> r.List(slot) == s.List(slot)
  {
    match a
    case SetLoading(key, value) => s.(loading := s.loading[key := value])
    case SetList(slot, items) => s.WithList(slot, items)
    case AppendList(slot, items) => if slot.Appendable() then s.WithList(slot, s.List(slot) + items) else s
    case SetSearchResults(results) => s.(searchResults := results)
    case SetSearchQuery(query) => s.(searchQuery := query)
    case SetSearchType(t) => s.(searchType := t)
    case SetSelectedContent(c) => s.(selectedContent := c)
    case SetContentType(t) => s.(contentType := t)
    case SetGenres(slot, genres) => s.(genres := s.genres[slot := genres])
    case SetError(key, error) => s.(errors := s.errors[key := error])
    case ClearError(key) => s.(errors := s.errors - {key})
    case SetImageConfig(c) => s.(imageConfig := c)
    case ClearSearch => s.(searchResults := [], searchQuery := "")
    case Unknown(_) => s
  }

  /** The initial state is well formed and every action keeps it so. */
  lemma ReducePreservesWellFormed(s: State, a: Action)
    requires WellFormed(s)
    ensures WellFormed(Initial())
    ensures WellFormed(Reduce(s, a))
  {
  }

  /** APPEND_*: the slot's list becomes the old list followed by the payload, so lengths
      add up and the old list is a prefix; every other list and field is unchanged. An
      APPEND for a slot without that action type changes nothing. */
  lemma AppendExtends(s: State, slot: ListSlot, items: seq<Item>)
    ensures var r := Reduce(s, AppendList(slot, items));
      && (slot.Appendable() ==>
            && r.List(slot) == s.List(slot) + items
            && |r.List(slot)| == |s.List(slot)| + |items|
            && r.List(slot)[..|s.List(slot)|] == s.List(slot)
            && r == s.WithList(slot, r.List(slot)))
      && (!slot.Appendable() ==> r == s)
  {
    if slot.Appendable() {
      var r := Reduce(s, AppendList(slot, items));
      assert r.List(slot)[..|s.List(slot)|] == s.List(slot);
    }
  }

  /** SET_*: the slot's list is the payload and nothing else changes. */
  lemma SetListReplacesOnlyItsSlot(s: State, slot: ListSlot, items: seq<Item>)
    ensures var r := Reduce(s, SetList(slot, items));
      && r.List(slot) == items
      && (forall other :: other != slot ==> r.List(other) == s.List(other))
      && r.loading == s.loading && r.errors == s.errors && r.genres == s.genres
    ensures Reduce(s, SetList(slot, items)) == s.WithList(slot, items)
  {
  }

  /** SET_LOADING changes the flag of its key only. */
  lemma SetLoadingChangesOnlyItsKey(s: State, key: string, value: bool)
    ensures var r := Reduce(s, SetLoading(key, value));
      && key in r.loading && r.loading[key] == value
      && r.loading.Keys == s.loading.Keys + {key}
      && (forall k :: k in s.loading && k != key ==> r.loading[k] == s.loading[k])
      && r == s.(loading := r.loading)
  {
  }

  /** CLEAR_ERROR removes exactly its key and keeps every other entry. */
  lemma ClearErrorRemovesOnlyItsKey(s: State, key: string)
    ensures var r := Reduce(s, ClearError(key));
      && r.errors.Keys == s.errors.Keys - {key}
      && (forall k :: k in r.errors ==> r.errors[k] == s.errors[k])
      && r == s.(errors := r.errors)
  {
  }

  /** SET_ERROR on a key that has no error, then CLEAR_ERROR on it, gives the state back. */
  lemma SetThenClearErrorRestores(s: State, key: string, error: string)
    requires key !in s.errors
    ensures Reduce(Reduce(s, SetError(key, error)), ClearError(key)) == s
  {
    var r := Reduce(Reduce(s, SetError(key, error)), ClearError(key));
    assert r.errors == s.errors;
  }

  /** CLEAR_SEARCH empties the results and the query and keeps the search type. */
  lemma ClearSearchKeepsType(s: State)
    ensures var r := Reduce(s, ClearSearch);
      && r.searchResults == [] && r.searchQuery == "" && r.searchType == s.searchType
      && r == s.(searchResults := [], searchQuery := "")
  {
  }

  /** SET_GENRES replaces the named genre slot and keeps the other. */
  lemma SetGenresChangesOnlyItsSlot(s: State, slot: string, genres: seq<Genre>)
    ensures var r := Reduce(s, SetGenres(slot, genres));
      && slot in r.genres && r.genres[slot] == genres
      && (forall k :: k in s.genres && k != slot ==> k in r.genres && r.genres[k] == s.genres[k])
      && r == s.(genres := r.genres)
  {
  }

  /** An action of unknown type returns the state as it was. */
  lemma UnknownActionIsIdentity(s: State, tag: string)
    ensures Reduce(s, Unknown(tag)) == s
  {
  }

  // ---------------------------------------------------------------------------
  // actions.search

  /** Dispatching actions one after the other. */
  function ReduceAll(s: State, actions: seq<Action>): State
    decreases |actions|
  {
    if actions == [] then s else ReduceAll(Reduce(s, actions[0]), actions[1..])
  }

  lemma {:induction false} ReduceAllAppend(s: State, xs: seq<Action>, ys: seq<Action>)
    ensures ReduceAll(s, xs + ys) == ReduceAll(ReduceAll(s, xs), ys)
    decreases |xs|
  {
    if xs == [] {
      assert xs + ys == ys;
    } else {
      assert (xs + ys)[1..] == xs[1..] + ys;
      ReduceAllAppend(Reduce(s, xs[0]), xs[1..], ys);
    }
  }

  /** A well-formed state stays well formed under any sequence of actions. */
  lemma {:induction false} ReduceAllPreservesWellFormed(s: State, actions: seq<Action>)
    requires WellFormed(s)
    ensures WellFormed(ReduceAll(s, actions))
    decreases |actions|
  {
    if actions != [] {
      ReducePreservesWellFormed(s, actions[0]);
      ReduceAllPreservesWellFormed(Reduce(s, actions[0]), actions[1..]);
    }
  }

  /** The search request for a search type: "movie" and "tv" have their own endpoints,
      anything else goes to multi-search. */
  function SearchEndpoint(searchType: string): (r: string)
    ensures searchType == "movie" ==> r == "/search/movie"
    ensures searchType == "tv" ==> r == "/search/tv"
    ensures searchType != "movie" && searchType != "tv" ==> r == "/search/multi"
  {
    if searchType == "movie" then "/search/movie"
    else if searchType == "tv" then "/search/tv"
    else "/search/multi"
  }

  /** A search request: the endpoint and the query term. */
  datatype SearchRequest = SearchRequest(endpoint: string, query: string)

  /** The actions `search(query, type)` dispatches, given how the search service answers
      (`respond`: the results, or the thrown error's message). A blank query dispatches
      nothing. */
  function SearchActions(query: string, searchType: string, respond: SearchRequest -> Result<seq<Item>, string>): (r: seq<Action>)
    ensures Trim(query) == "" <==> r == []
  {
    if Trim(query) == "" then []
    else
      var outcome := respond(SearchRequest(SearchEndpoint(searchType), query));
      var answer := match outcome
        case Ok(results) => SetSearchResults(results)
        case Err(message) => SetError(SearchKey, message);
      [SetLoading(SearchKey, true), SetSearchQuery(query), SetSearchType(searchType), answer, SetLoading(SearchKey, false)]
  }

  /** Five dispatches in a row. */
  lemma ReduceAllFive(s: State, a0: Action, a1: Action, a2: Action, a3: Action, a4: Action)
    ensures ReduceAll(s, [a0, a1, a2, a3, a4]) == Reduce(Reduce(Reduce(Reduce(Reduce(s, a0), a1), a2), a3), a4)
  {
    var s1 := Reduce(s, a0);
    var s2 := Reduce(s1, a1);
    var s3 := Reduce(s2, a2);
    var s4 := Reduce(s3, a3);
    assert [a0, a1, a2, a3, a4][1..] == [a1, a2, a3, a4];
    assert [a1, a2, a3, a4][1..] == [a2, a3, a4];
    assert [a2, a3, a4][1..] == [a3, a4];
    assert [a3, a4][1..] == [a4];
    assert ReduceAll(s4, [a4]) == Reduce(s4, a4) by { assert [a4][1..] == []; }
    assert ReduceAll(s3, [a3, a4]) == ReduceAll(s4, [a4]);
    assert ReduceAll(s2, [a2, a3, a4]) == ReduceAll(s3, [a3, a4]);
    assert ReduceAll(s1, [a1, a2, a3, a4]) == ReduceAll(s2, [a2, a3, a4]);
  }

  /** After a search the query and type are stored, the search flag is off again, and the
      answer of the type's endpoint (`SearchEndpoint`) for the query decides the rest: its
      results replace the old ones, or the thrown error's message is recorded under
      "search" with the old results kept; nothing else changes, in particular no list of
      the home page. A blank query leaves the state as it was. */
  lemma SearchEffect(s: State, query: string, searchType: string, respond: SearchRequest -> Result<seq<Item>, string>)
    ensures Trim(query) == "" ==> ReduceAll(s, SearchActions(query, searchType, respond)) == s
    ensures Trim(query) != "" ==>
      var r := ReduceAll(s, SearchActions(query, searchType, respond));
      var outcome := respond(SearchRequest(SearchEndpoint(searchType), query));
      var settled := s.(searchQuery := query, searchType := searchType, loading := s.loading[SearchKey := false]);
      && (outcome.Ok? ==> r == settled.(searchResults := outcome.value))
      && (outcome.Err? ==> r == settled.(errors := s.errors[SearchKey := outcome.error]))
    ensures Trim(query) != "" ==>
      var r := ReduceAll(s, SearchActions(query, searchType, respond));
      r.searchType == searchType && forall slot :: r.List(slot) == s.List(slot)
  {
    if Trim(query) != "" {
      var last := SearchActionsShape(query, searchType, respond);
      SearchSteps(s, query, searchType, last);
    }
  }

  /** A non-blank search dispatches five actions; the fourth, `last`, carries the answer. */
  lemma SearchActionsShape(query: string, searchType: string, respond: SearchRequest -> Result<seq<Item>, string>)
    returns (last: Action)
    requires Trim(query) != ""
    ensures var outcome := respond(SearchRequest(SearchEndpoint(searchType), query));
      last == (if outcome.Ok? then SetSearchResults(outcome.value) else SetError(SearchKey, outcome.error))
    ensures SearchActions(query, searchType, respond) ==
      [SetLoading(SearchKey, true), SetSearchQuery(query), SetSearchType(searchType), last, SetLoading(SearchKey, false)]
  {
    var outcome := respond(SearchRequest(SearchEndpoint(searchType), query));
    last := if outcome.Ok? then SetSearchResults(outcome.value) else SetError(SearchKey, outcome.error);
  }

  /** CLEAR_SEARCH dispatched after any batch of actions empties the results and the query
      and keeps the type and the lists that batch left. */
  lemma {:induction false} ClearSearchAfter(s: State, actions: seq<Action>)
    ensures var before := ReduceAll(s, actions);
      var r := ReduceAll(s, actions + [ClearSearch]);
      r.searchResults == [] && r.searchQuery == "" && r.searchType == before.searchType
      && forall slot :: r.List(slot) == before.List(slot)
  {
    ReduceAllAppend(s, actions, [ClearSearch]);
    assert [ClearSearch][1..] == [];
  }

  /** Clearing the search after a search empties the results and the query but keeps the
      type that search stored, whatever the endpoint answered. */
  lemma SearchThenClear(s: State, query: string, searchType: string, respond: SearchRequest -> Result<seq<Item>, string>)
    requires Trim(query) != ""
    ensures var r := ReduceAll(s, SearchActions(query, searchType, respond) + [ClearSearch]);
      r.searchResults == [] && r.searchQuery == "" && r.searchType == searchType
      && forall slot :: r.List(slot) == s.List(slot)
  {
    SearchEffect(s, query, searchType, respond);
    ClearSearchAfter(s, SearchActions(query, searchType, respond));
  }

  /** The five dispatches of a search whose fourth action is `last`. */
  lemma SearchSteps(s: State, query: string, searchType: string, last: Action)
    requires last.SetSearchResults? || (last.SetError? && last.errorKey == SearchKey)
    ensures var a0, a1, a2, a4 := SetLoading(SearchKey, true), SetSearchQuery(query), SetSearchType(searchType), SetLoading(SearchKey, false);
      var settled := s.(searchQuery := query, searchType := searchType, loading := s.loading[SearchKey := false]);
      var r := ReduceAll(s, [a0, a1, a2, last, a4]);
      && (last.SetSearchResults? ==> r == settled.(searchResults := last.results))
      && (last.SetError? ==> r == settled.(errors := s.errors[SearchKey := last.error]))
      && r.searchType == searchType && forall slot :: r.List(slot) == s.List(slot)
  {
    var a0, a1, a2, a4 := SetLoading(SearchKey, true), SetSearchQuery(query), SetSearchType(searchType), SetLoading(SearchKey, false);
    ReduceAllFive(s, a0, a1, a2, last, a4);
    var s3 := s.(loading := s.loading[SearchKey := true], searchQuery := query, searchType := searchType);
    assert Reduce(Reduce(Reduce(s, a0), a1), a2) == s3;
    assert s.loading[SearchKey := true][SearchKey := false] == s.loading[SearchKey := false];
  }

}
