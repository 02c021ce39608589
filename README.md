# PopcornHub front-end core in Dafny

PopcornHub is a React front end over the TMDB media-metadata API. It lists movies and TV
shows, searches them, filters by genre and opens a detail modal. This project models the
logic of that front end and proves properties of it:

- the service helpers: runtime formatting, trailer, director and main-cast picks, genre
  names, image and YouTube URL builders, and `getContentDetails`. That last one covers id
  validation, normalisation and the single retry with the opposite kind after a 404
  (module `TmdbService`);
- the `Content` modal: genre labels, the detail extraction with its all-or-nothing
  fallback, the tv guess on click, overview truncation and the modal state (module
  `Content`);
- the detail card: id guard, error message, similar-item classification, the
  director/cast/trailer/runtime picks and list caps, and its fetch effect (module
  `DetailsCard`);
- the poster card: content-type chain, click guard, title and date fallbacks, genre chips
  and class names (module `ContentCard`);
- the store: `appReducer` over `initialState` and the action sequence that `search`
  dispatches (module `AppState`);
- the list view of `App`: search, genre and page handlers, endpoint choice, response
  handling and the retry counter (module `ListView`);
- the home page: section caps, "Load More" buttons, the detailed view and its paging
  (module `Home`).

JavaScript's value semantics are spelled out in module `Js`. This covers truthiness,
`||` on strings, `String(n)`, `trim`, `slice`, `find`, `findIndex`, `filter(Boolean)` and
`join`. The JSON payloads are datatypes in module `Payloads`; a field that may be missing
or null is an `Option` or a `JsStr`. The network is a parameter that maps each request
to its response (a function, or for the detail service a table of responses), so a method
returns the requests it made alongside its result.
React state setters become fields of a class whose methods change them, and the
reducer is a pure function over a `State` datatype.

Notes on the system drawn from the proofs:

- The detail card's 404 message ("Content not found. This item may have been removed
  ...") can never be shown. `getContentDetails` turns every 404 into a retry and then
  into an error without a status, so the card never sees status 404
  (`TmdbService.GetContentDetails`, `DetailsCard.DetailsCardView.FetchContentDetails`).
- `Content`'s click handler calls an item tv when `first_air_date` is present at all. The
  poster card and the detail card call it tv only when `first_air_date` is truthy and
  `release_date` is not. An item with both dates is opened as tv but badged "Movie"
  (`ContentCard.ClassifiersDisagreeOnBothDates`).
- The detail card's trailer is the first Trailer-typed video on any site. `getTrailer`
  wants a YouTube one, so the two disagree when another site's trailer comes first
  (`DetailsCard.TrailerDisagreesOffYouTube`).
- The list view's retry delay grows linearly (1000, 2000, 3000 ms), although the code's
  comment calls it exponential (`ListView.ConsecutiveFailureDelaysLinear`).
- In `Content`, one failed dependent request blanks every detail field, including those
  whose own request succeeded (`Content.OneFailureLosesEverything`).
- The home page never fetches page 2 of a category. Its sections hold page 1 (the fetch
  action creators call the list getters with their default page 1), every "Load More"
  handler opens the detailed view on page 2, and the first click there asks for
  `currentPage + 1`, page 3 (`Home.DetailedViewSkipsPageTwo`).

## Model

| member | source | states |
|---|---|---|
| TmdbService.Kind.Opposite | src/services/tmdbService.js:107 | the retry kind differs from the first kind |
| TmdbService.JsRemainder | src/services/tmdbService.js:213 | JavaScript `%`: a == q*b + r for the quotient q truncated toward zero, the remainder smaller than the divisor in magnitude and with the dividend's sign |
| TmdbService.FormatRuntime | src/services/tmdbService.js:210-215 | "N/A" exactly for a missing or zero argument; for positive m, hours*60 + minutes == m with 0 <= minutes < 60 and hours shown exactly when m >= 60; a negative m gives minutes only, in (-60, 0] |
| TmdbService.FormatRuntimeText | src/services/tmdbService.js:210-215 | the text is "N/A" exactly for a missing or zero argument; otherwise `String(minutes)` + "m", or `String(hours)` + "h " + `String(minutes)` + "m" with the hours and minutes of `FormatRuntime` |
| TmdbService.FormatRuntimeTextReadsBack | src/services/tmdbService.js:210-215 | for a positive runtime the digits in the text read back as hours and minutes with hours*60 + minutes equal to the runtime and minutes below 60 |
| TmdbService.GetTrailer | src/services/tmdbService.js:241-246 | nothing when videos or results is missing; the first YouTube trailer when there is one, else the first video, else nothing |
| TmdbService.GetDirector | src/services/tmdbService.js:248-252 | "N/A" for missing credits or crew; the name of the first crew member whose job is "Director"; "N/A" when there is none |
| TmdbService.GetMainCast | src/services/tmdbService.js:254-257 | [] for missing credits or cast; otherwise the first min(limit, cast length) members in order (a negative limit counts back from the end); limit defaults to 5 |
| TmdbService.GetGenreName | src/services/tmdbService.js:259-276 | the kind's table name for a known id, the tv table only for kind "tv"; "Unknown" exactly for an unknown id |
| TmdbService.ImageUrl | src/services/tmdbService.js:185-193 | a truthy path is recovered from the URL under the base URL and size; otherwise the placeholder |
| TmdbService.PlaceholderIsNotCdnUrl | src/services/tmdbService.js:186-191 | no placeholder can be read back as an image URL |
| TmdbService.GetPosterUrl | src/services/tmdbService.js:186-187 | the path is recovered from the poster URL (size w500 by default); a falsy path gives the poster placeholder |
| TmdbService.GetBackdropUrl | src/services/tmdbService.js:188-189 | the same for backdrops (w1280) and their placeholder |
| TmdbService.GetProfileUrl | src/services/tmdbService.js:190-191 | the same for profiles (w185) and their placeholder |
| TmdbService.GetOriginalUrl | src/services/tmdbService.js:192-193 | null exactly for a falsy path; otherwise the path is recovered from the "original" URL |
| TmdbService.GetWatchUrl | src/services/tmdbService.js:201-202 | null exactly for a falsy key; otherwise the key is recovered after "watch?v=" |
| TmdbService.GetEmbedUrl | src/services/tmdbService.js:203-204 | null exactly for a falsy key; otherwise the key is recovered after "embed/" |
| TmdbService.GetThumbnailUrl | src/services/tmdbService.js:205-206 | null exactly for a falsy key; otherwise the key and quality are recovered from the thumbnail URL |
| TmdbService.StripAffixesOf | src/services/tmdbService.js:185-206 | the inverse the URL builders are checked against: stripping the affixes a URL was built with gives back its middle |
| TmdbService.ValidateId | src/services/tmdbService.js:60-67 | accepts exactly the ids whose trimmed text is all digits, returning that text; a falsy, "undefined" or "null" id gets the invalid-id error, any other refused id the format error naming its trimmed text; no error carries a status |
| TmdbService.Normalise | src/services/tmdbService.js:92-99 | the record keeps the payload and flattens cast, crew, videos, similar and reviews, each [] when its sub-object or array is missing |
| TmdbService.GetContentDetails | src/services/tmdbService.js:57-139 | a refused id makes no request; otherwise the first request is the normalised kind and id, a second one with the opposite kind is made exactly when the first fails with 404, the result is the normalised last response, a non-404 error is passed on, a failed retry gives "not found in both", and no error it returns has status 404 |
| Content.GenreListsMatchTables | src/Components/Content.jsx:8-47 | the component's genre lists hold exactly the service's table entries, for both kinds |
| Content.MovieGenresInTable | src/Components/Content.jsx:8-29 | every movie list entry is in the movie table with the same name |
| Content.MovieGenresCoverTable | src/Components/Content.jsx:8-29 | every movie table key has a list entry |
| Content.TvGenresInTable | src/Components/Content.jsx:30-47 | every tv list entry is in the tv table with the same name |
| Content.TvGenresCoverTable | src/Components/Content.jsx:30-47 | every tv table key has a list entry |
| Content.GenreNameOfMatchesService | src/Components/Content.jsx:50-53 | the list lookup finds an id exactly when the service knows it, with the service's name |
| Content.GenreNameListSpec | src/Components/Content.jsx:50-54 | the names are those of the known ids, in order, as the service names them; unknown ids are dropped |
| Content.KnownGenreNames | src/Components/Content.jsx:50-54 | at most one name per id, none empty or "Unknown" |
| Content.KnownGenreNamesEmptyIff | src/Components/Content.jsx:50-54 | no name is left exactly when no id is known |
| Content.GenreLabel | src/Components/Content.jsx:327 | the known names joined by ", ", or "Unknown Genres" exactly when no id is known (missing ids count as none) |
| Content.RegionPlatforms | src/Components/Content.jsx:149 | the "IN" entry's flatrate list when there is one (or [] when it has none); [] when there are no results or no "IN" entry |
| Content.FetchMovieDetails | src/Components/Content.jsx:110-166 | any failed response gives the "Unavailable" record; otherwise the cast is the first 15 in order, the director is the first crew member with the kind's lead job ("Creator"/"Director") or "Not Available", the trailer URL embeds the first YouTube trailer or is "", and platforms are the "IN" flatrate list |
| Content.OneFailureLosesEverything | src/Components/Content.jsx:157-164 | a failed providers request also empties the cast that arrived |
| Content.IsTvItem | src/Components/Content.jsx:173 | the click handler calls an item tv exactly when media_type is "tv" or a first_air_date field is present, whatever its value |
| Content.OverviewText | src/Components/Content.jsx:335 | expanded: the whole overview; collapsed: its first min(150, length) characters followed by "..." |
| Content.ContentView.constructor | src/Components/Content.jsx:59-68 | no selection, empty details, collapsed overview, not tv |
| Content.ContentView.ResetMovieDetails | src/Components/Content.jsx:73-81 | empty details and a collapsed overview; the rest unchanged |
| Content.ContentView.HandleMovieClick | src/Components/Content.jsx:169-178 | selects the item, resets details, sets tv to the media_type/first_air_date guess and requests its details |
| Content.ContentView.ReceiveMovieDetails | src/Components/Content.jsx:110-166 | the details become the extraction of the responses; the rest unchanged |
| Content.ContentView.CloseModal | src/Components/Content.jsx:180-184 | clears the selection and resets the details |
| Content.ContentView.ToggleDescription | src/Components/Content.jsx:186-188 | flips only the expanded flag |
| Content.ContentView.HandleRecommendationClick | src/Components/Content.jsx:84-108 | the modal closes and `/movie/{id}` is requested for the recommended item's id, even a tv show's; on an ok response the modal reopens on the fetched item as a movie and its details are requested, otherwise no further request |
| DetailsCard.ErrorMessage | src/Components/MovieDetailsCard.jsx:37-46 | 404 gives the not-found text, else a non-empty error message, else the generic text |
| DetailsCard.SimilarItemKind | src/Components/MovieDetailsCard.jsx:64-80 | media_type when truthy; otherwise "tv" exactly when first_air_date is truthy and release_date is not, else "movie" |
| DetailsCard.SimilarItemClick | src/Components/MovieDetailsCard.jsx:64-82 | a click reaches the parent exactly when it passed a callback, with the id and the similar-item kind |
| DetailsCard.CardDirector | src/Components/MovieDetailsCard.jsx:151 | the first crew member whose job is "Director"; none exactly when no crew member has that job |
| DetailsCard.CardTrailer | src/Components/MovieDetailsCard.jsx:153-154 | the first Trailer-typed video whatever its site; else the first video; else none |
| DetailsCard.DisplayRuntime | src/Components/MovieDetailsCard.jsx:146 | a non-zero runtime, else a non-zero first episode runtime, else nothing |
| DetailsCard.View | src/Components/MovieDetailsCard.jsx:146-154 | main cast, genres, companies and similar items are prefixes capped at 6, 3, 3 and 8 |
| DetailsCard.DirectorAgreesWithService | src/Components/MovieDetailsCard.jsx:151 | the card's director is the one `getDirector` names, "N/A" standing for none |
| DetailsCard.MainCastAgreesWithService | src/Components/MovieDetailsCard.jsx:152 | the card's main cast is `getMainCast(credits, 6)` |
| DetailsCard.TrailerAgreesWithService | src/Components/MovieDetailsCard.jsx:153-154 | when every Trailer-typed video is on YouTube, the card's trailer is `getTrailer`'s |
| DetailsCard.TrailerDisagreesOffYouTube | src/Components/MovieDetailsCard.jsx:153-154 | an off-YouTube trailer ahead of a YouTube one is played by the card and skipped by `getTrailer` |
| DetailsCard.DetailsCardView.constructor | src/Components/MovieDetailsCard.jsx:11-13 | no content, loading, no error |
| DetailsCard.DetailsCardView.Screen | src/Components/MovieDetailsCard.jsx:90-122 | loading first, then the error text or "Content not found" when there is an error or no content, else the content |
| DetailsCard.DetailsCardView.FetchContentDetails | src/Components/MovieDetailsCard.jsx:16-49 | a falsy, "undefined" or "null" id makes no request and sets "Invalid content ID"; an id refused for its format makes no request and shows the service's format error; otherwise the first request is the service's normalised kind and id, a retry with the opposite kind follows exactly a 404, the last response decides the outcome (its normalised record when ok), a failure shows the first response's error or, after the retry, "not found in both"; the record lands in the content or the error's message in the error, never from a 404; loading ends false |
| ContentCard.ContentType | src/Components/ContentCard.jsx:33-44 | media_type when truthy; otherwise "tv" exactly when first_air_date is truthy and release_date is not, else "movie" |
| ContentCard.SimilarItemKindIsContentType | src/Components/ContentCard.jsx:33-44 | the detail card classifies every item as the poster card does |
| ContentCard.IsTvItemAgainstContentType | src/Components/ContentCard.jsx:33-44 | every item the card calls tv is tv for the click handler, which adds exactly the items with a first_air_date field the card calls something else |
| ContentCard.ClassifiersDisagreeOnBothDates | src/Components/ContentCard.jsx:33-44 | an item with both dates is tv for the click handler and "movie" for the card |
| ContentCard.Click | src/Components/ContentCard.jsx:64-66 | the callback gets (id, type) exactly when there is one and the id is truthy and not "undefined" or "null" |
| ContentCard.DisplayTitle | src/Components/ContentCard.jsx:29 | the title when truthy, else the name |
| ContentCard.DisplayDate | src/Components/ContentCard.jsx:30 | the release date when truthy, else the first air date |
| ContentCard.TypeBadge | src/Components/ContentCard.jsx:128-131 | "TV" exactly for a tv item, "Movie" otherwise |
| ContentCard.GenreChips | src/Components/ContentCard.jsx:152-158 | none without showGenres; otherwise the first min(2, number of ids) ids in order, named by `getGenreName` for the card's type |
| ContentCard.CardClasses | src/Components/ContentCard.jsx:81-83 | "content-card content-card--" + size, then " " + className only when className is non-empty |
| AppState.Initial | src/context/AppContext.jsx:4-42 | `initialState`: every list empty, empty query, type "multi", a false loading flag for exactly the nine keys, no selection, kind "movie", empty "movies" and "tv" genre lists, no errors, no image configuration |
| AppState.Reduce | src/context/AppContext.jsx:70-202 | `appReducer`: of the seven home-page lists only a SET_* or APPEND_* action changes one, and only the one it names |
| AppState.State.WithList | src/context/AppContext.jsx:80-140 | replacing one list changes that list and nothing else |
| AppState.ReducePreservesWellFormed | src/context/AppContext.jsx:4-42 | the initial state has every loading flag and genre slot, and every action keeps them |
| AppState.AppendExtends | src/context/AppContext.jsx:116-140 | an APPEND of an appendable list puts the payload after the old list, lengths adding up; other lists and fields are unchanged |
| AppState.SetListReplacesOnlyItsSlot | src/context/AppContext.jsx:80-114 | a SET replaces its list and no other field: the new state is the old one with that list replaced |
| AppState.SetLoadingChangesOnlyItsKey | src/context/AppContext.jsx:72-79 | SET_LOADING sets only its key and keeps every other flag and field |
| AppState.ClearErrorRemovesOnlyItsKey | src/context/AppContext.jsx:182-187 | CLEAR_ERROR removes exactly its key from errors |
| AppState.SetThenClearErrorRestores | src/context/AppContext.jsx:174-187 | SET_ERROR on a fresh key followed by CLEAR_ERROR gives back the state |
| AppState.ClearSearchKeepsType | src/context/AppContext.jsx:193-198 | CLEAR_SEARCH empties results and query and keeps the search type |
| AppState.SetGenresChangesOnlyItsSlot | src/context/AppContext.jsx:166-173 | SET_GENRES changes only its slot of the genre map |
| AppState.UnknownActionIsIdentity | src/context/AppContext.jsx:199-200 | an unknown action leaves the state as it is |
| AppState.ReduceAllAppend | src/context/AppContext.jsx:70-202 | dispatching two batches of actions in turn is dispatching them as one batch (the composition law the search-then-clear lemma uses) |
| AppState.ReduceAllPreservesWellFormed | src/context/AppContext.jsx:70-202 | any sequence of actions keeps the state well formed |
| AppState.SearchEndpoint | src/context/AppContext.jsx:385-394 | "movie" and "tv" pick their search endpoints; anything else uses multi-search; the search effect sends the query to this endpoint |
| AppState.SearchActions | src/context/AppContext.jsx:378-405 | nothing is dispatched exactly when the query is blank after trimming |
| AppState.SearchEffect | src/context/AppContext.jsx:378-405 | a blank query leaves the state alone; otherwise query and type are stored, the answer of the type's endpoint for the query lands (its results, or its error under "search"), and the search loading flag ends false with every list unchanged |
| AppState.ClearSearchAfter | src/context/AppContext.jsx:193-198 | CLEAR_SEARCH dispatched after any batch of actions empties results and query and keeps the search type and every list that batch left |
| AppState.SearchThenClear | src/context/AppContext.jsx:193-198 | CLEAR_SEARCH after a search empties results and query, keeps the type the search stored and leaves every home-page list as it was |
| ListView.ListEndpoint | src/App.jsx:101-139 | a non-empty query gives `/search/{kind}` with the query; otherwise a selected genre gives `/discover/{kind}` with it; otherwise `/discover/{kind}` by popularity; the page is always sent |
| ListView.QueryOverridesGenre | src/App.jsx:101-139 | with a query the selected genre does not matter |
| ListView.ResponseOutcome | src/App.jsx:143-153 | an HTTP failure, a `success: false` body or a thrown error is an error with its message; any other body gives its results or [] |
| ListView.RetryDelay | src/App.jsx:162-167 | a retry is scheduled exactly while retryCount < 3, after 1000*(retryCount+1) ms |
| ListView.ConsecutiveFailureDelaysLinear | src/App.jsx:162-167 | consecutive failures wait 1000 ms more each time and stop at the third retry |
| ListView.FreshViewRetryDelays | src/App.jsx:162-167 | from a fresh view the delays are 1000, 2000 and 3000 ms |
| ListView.ListView.constructor | src/App.jsx:17-25 | the initial state: empty query and list, page 1, no genre, no error, zero retries |
| ListView.ListView.ClearSearch | src/App.jsx:58-62 | clears query and genre and returns to page 1 |
| ListView.ListView.HandleSearch | src/App.jsx:64-68 | sets the query, clears the genre, page 1 |
| ListView.ListView.HandleSelectGenre | src/App.jsx:70-76 | sets genre and kind, clears the query, page 1, closes the panel |
| ListView.ListView.HandlePagination | src/App.jsx:78-80 | the page becomes max(1, page + direction), so it never drops below 1 |
| ListView.ListView.ToggleGenrePanel | src/App.jsx:83-85 | flips only the panel flag |
| ListView.ListView.FetchMoviesOrTvShows | src/App.jsx:88-171 | without an API key: an error and no request; otherwise the endpoint's request, its results on success with retries reset, its error otherwise with a retry scheduled while fewer than 3 were made; loading ends false |
| ListView.ListView.RetryTimerFired | src/App.jsx:164-166 | the retry counter goes up by one and nothing else changes |
| ListView.ListView.RetryButtonShown | src/App.jsx:216 | the Retry button is there exactly when there is an error and fewer than 3 retries |
| ListView.ListView.ManualRetry | src/App.jsx:216-218 | a click on the shown button adds one retry |
| Home.Category.Slot | src/pages/HomePage.jsx:172-206 | each category reads the store list of the same key, one that can be appended to |
| Home.ParseCategory | src/pages/HomePage.jsx:137-155 | a name is recognised exactly when it is one of the five category names |
| Home.ParseCategoryName | src/pages/HomePage.jsx:137-155 | each category's name is recognised as that category |
| Home.ParseView | src/pages/HomePage.jsx:104-105 | null never opens a category; a recognised view holds that category's name |
| Home.MovieCount | src/pages/HomePage.jsx:37-39 | 10 items on a narrow screen, 15 otherwise |
| Home.TrendingMovieCount | src/pages/HomePage.jsx:42-44 | 4 items on a narrow screen, 10 otherwise |
| Home.SectionLimit | src/pages/HomePage.jsx:342-454 | trending uses the trending count, the others the movie count, never more than the movie count |
| Home.Section | src/pages/HomePage.jsx:369-377 | the first min(limit, list length) items, and a Load More button exactly when the list is longer than the limit and not loading |
| Home.LoadMoreIffHidden | src/pages/HomePage.jsx:369-377 | the button is there exactly when items are hidden and the list is not loading |
| Home.HomeSection | src/pages/HomePage.jsx:342-351 | a home section shows a prefix of its store list, at most 15 (10 on mobile) and for trending at most 10 (4 on mobile) |
| Home.InitialFetches | src/pages/HomePage.jsx:46-65 | the tv, top-rated and upcoming lists are fetched exactly when empty and not loading, each once |
| Home.GetCategoryConfig | src/pages/HomePage.jsx:172-206 | a config for exactly the five category names, with that category's list and loading flag; null otherwise |
| Home.PageAfterLoad | src/pages/HomePage.jsx:157-165 | the page advances by one on success and stays on failure |
| Home.RequestedPagesNoSkip | src/pages/HomePage.jsx:131-168 | the k-th click asks for the starting page + 1 + the number of earlier successes: after the starting page no page is skipped, and a failed page is asked for again |
| Home.DetailedViewSkipsPageTwo | src/pages/HomePage.jsx:67-100 | the sections hold page 1 and the detailed view starts on page 2, so its first click asks for page 3 and no click asks for page 2 |
| Home.HomeView.constructor | src/pages/HomePage.jsx:19-22 | no detailed view, page 2, not mobile, not loading more |
| Home.HomeView.CheckScreenSize | src/pages/HomePage.jsx:26-28 | narrow exactly below 768 pixels |
| Home.HomeView.HandleLoadMore | src/pages/HomePage.jsx:67-100 | each Load More handler opens its category on page 2 |
| Home.HomeView.HandleBackToHome | src/pages/HomePage.jsx:102-129 | the open category (if any) is refetched; the view closes, page 2, not loading more |
| Home.HomeView.HandleLoadMoreInDetailedView | src/pages/HomePage.jsx:131-168 | a request for page currentPage + 1 of the open category, none for an unknown view; the page advances exactly on success; loading more ends false in every case |

## Left out

- Network I/O (axios, `fetch`, `apiRequest`): responses are parameters or oracle functions. The list endpoint wrappers of `tmdbService` only build a request, so they are left out.
- Environment reading: `getApiKey` and the base URL overrides. The model uses the default base URLs, and the list view takes "is there a key" as a parameter.
- URL encoding (`buildApiUrl`, `URLSearchParams`, `encodeURIComponent`): requests are modelled as path plus parameter values, not as encoded strings.
- Timers, `Promise.all` and stale-response ordering. A retry timer is the separate method `RetryTimerFired`. The model does not capture a manual retry click racing a pending timer, which can push `retryCount` past 3.
- Floating point: `formatRating`, vote averages and rating colours. Runtimes are integers.
- Date and `Intl` formatting: `formatDate`, `formatCurrency`, `getYearFromDate`.
- The Python backend (recommender and API server) and `mockData`.
- Presentation components and thin glue: Footer, NavBar, LoadingScreen, EnvChecker, ContentGrid, Modal, Search, MovieRecommendations, the pages other than the home page, and `useContentDetails`.
- The store's async action creators other than `search`: they await one service call and dispatch, and the reducer they feed is modelled.
- DOM effects: scrolling, `document.body` classes and styles, resize listeners (only the width test is kept), key handlers, the detail card's tabs and the `Content` list's 7-item mobile cut.
- React's rendering of a numeric 0 runtime as "0": `DisplayRuntime` only states which value the expression selects.
- AppState.Reduce: an APPEND of an undefined payload is not modelled (payloads are sequences), and an APPEND for one of the two lists without an APPEND action type is the identity.
- Content.FetchMovieDetails: the order of the four requests is not modelled, only which responses were ok.
- Content.OverviewText: counts characters, while `slice(0, 150)` counts UTF-16 code units, so an overview with characters outside the Basic Multilingual Plane (emoji) is cut elsewhere by the program.
- TmdbService.ValidateId: a numeric id is an integer, and every positive one is accepted; `String()` of a non-integer or of a number of 1e21 or more is not all digits, so the program refuses those.
- TmdbService.GetContentDetails: axios rejects a non-2xx response with an error carrying its status; the model reads that as a response `Err` with `status`.
- Home.HomeView.HandleLoadMoreInDetailedView: the fetch-more action creators are a parameter reporting success; the list appending they trigger is `AppState.AppendExtends`.
