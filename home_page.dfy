/** src/pages/HomePage.jsx: the landing page. It shows five capped sections of the store's
    lists, each with a "Load More" button that opens a detailed view of one category; the
    detailed view pages further through that category and "Back to Home" refetches it. */
module Home {
  import opened Js
  import opened Payloads
  import AppState

  // ---------------------------------------------------------------------------
  // Categories

  /** The five categories the page can open in a detailed view. */
  datatype Category = PopularMovies | TrendingMovies | TopRatedMovies | UpcomingMovies | PopularTvShows
  {
    /** The string `detailedView` holds for the category. */
    function Name(): string {
      match this
      case PopularMovies => "popularMovies"
      case TrendingMovies => "trendingMovies"
      case TopRatedMovies => "topRatedMovies"
      case UpcomingMovies => "upcomingMovies"
      case PopularTvShows => "popularTVShows"
    }

    /** The store list the category shows. */
    function Slot(): (slot: AppState.ListSlot)
      ensures slot.Key() == Name()
      ensures slot.Appendable()
    {
      match this
      case PopularMovies => AppState.PopularMovies
      case TrendingMovies => AppState.TrendingMovies
      case TopRatedMovies => AppState.TopRatedMovies
      case UpcomingMovies => AppState.UpcomingMovies
      case PopularTvShows => AppState.PopularTvShows
    }
  }

  /** The `switch (detailedView)` of the handlers: one of the five names, or nothing. */
  function ParseCategory(view: string): (r: Option<Category>)
    ensures r.Some? ==> r.value.Name() == view
    ensures r.None? ==> forall c: Category :: c.Name() != view
  {
    if view == "popularMovies" then Some(PopularMovies)
    else if view == "trendingMovies" then Some(TrendingMovies)
    else if view == "topRatedMovies" then Some(TopRatedMovies)
    else if view == "upcomingMovies" then Some(UpcomingMovies)
    else if view == "popularTVShows" then Some(PopularTvShows)
    else None
  }

  /** Every category's name is recognised as that category, so no two share a name. */
  lemma ParseCategoryName(c: Category)
    ensures ParseCategory(c.Name()) == Some(c)
  {
  }

  /** A `detailedView` value the switch recognises: null and "" never do. */
  function ParseView(view: Option<string>): (r: Option<Category>)
    ensures r.Some? ==> view == Some(r.value.Name())
    ensures view.None? ==> r.None?
  {
    if view.Some? && view.value != "" then ParseCategory(view.value) else None
  }

  // ---------------------------------------------------------------------------
  // Section sizes

  /** `getMovieCount`: ten items on a narrow screen, fifteen otherwise. */
  function MovieCount(isMobile: bool): (n: nat)
    ensures isMobile ==> n == 10
    ensures !isMobile ==> n == 15
  {
    if isMobile then 10 else 15
  }

  /** `getTrendingMovieCount`: two rows, four items on a narrow screen, ten otherwise. */
  function TrendingMovieCount(isMobile: bool): (n: nat)
    ensures isMobile ==> n == 4
    ensures !isMobile ==> n == 10
  {
    if isMobile then 4 else 10
  }

  /** The cap of one home section: the trending count for trending, the movie count for
      the four other sections. */
  function SectionLimit(c: Category, isMobile: bool): (n: nat)
    ensures c.TrendingMovies? ==> n == TrendingMovieCount(isMobile)
    ensures !c.TrendingMovies? ==> n == MovieCount(isMobile)
    ensures n <= MovieCount(isMobile)
  {
    if c.TrendingMovies? then TrendingMovieCount(isMobile) else MovieCount(isMobile)
  }

  /** `loading.<key>`: a missing key reads as undefined, which is falsy. */
  predicate LoadingFlag(s: AppState.State, key: string) {
    key in s.loading && s.loading[key]
  }

  /** What one home section renders: the first items of its list and whether its "Load
      More" button appears. */
  datatype SectionView = SectionView(shown: seq<Item>, loadMore: bool)

  /** `list.slice(0, limit)` and `list.length > limit && !loading`. */
  function Section(list: seq<Item>, limit: nat, loading: bool): (r: SectionView)
    ensures |r.shown| == Min(limit, |list|) && r.shown == list[..|r.shown|]
    ensures r.loadMore <==> |list| > limit && !loading
  {
    SectionView(Take(list, limit), |list| > limit && !loading)
  }

  /** The button appears exactly when the section hides some of its list and is not
      loading: nothing hidden means no button, and while loading there is none either. */
  lemma LoadMoreIffHidden(list: seq<Item>, limit: nat, loading: bool)
    ensures var r := Section(list, limit, loading);
      r.loadMore <==> |r.shown| < |list| && !loading
  {
  }

  /** One home section of the store's state. */
  function HomeSection(c: Category, s: AppState.State, isMobile: bool): (r: SectionView)
    ensures |r.shown| <= |s.List(c.Slot())| && r.shown == s.List(c.Slot())[..|r.shown|]
    ensures |r.shown| <= 15 && (isMobile ==> |r.shown| <= 10)
    ensures c.TrendingMovies? ==> |r.shown| <= 10 && (isMobile ==> |r.shown| <= 4)
    ensures r.loadMore <==> |s.List(c.Slot())| > SectionLimit(c, isMobile) && !LoadingFlag(s, c.Name())
  {
    Section(s.List(c.Slot()), SectionLimit(c, isMobile), LoadingFlag(s, c.Name()))
  }

  /** The mount effect: the tv, top-rated and upcoming lists are fetched when empty and not
      already loading, in that order. */
  function InitialFetches(s: AppState.State): (r: seq<Category>)
    ensures forall c :: c in r <==>
      && (c.PopularTvShows? || c.TopRatedMovies? || c.UpcomingMovies?)
      && |s.List(c.Slot())| == 0 && !LoadingFlag(s, c.Name())
    ensures forall i, j :: 0 <= i < j < |r| ==> r[i] != r[j]
  {
    var tv := if |s.popularTvShows| == 0 && !LoadingFlag(s, "popularTVShows") then [PopularTvShows] else [];
    var top := if |s.topRatedMovies| == 0 && !LoadingFlag(s, "topRatedMovies") then [TopRatedMovies] else [];
    var up := if |s.upcomingMovies| == 0 && !LoadingFlag(s, "upcomingMovies") then [UpcomingMovies] else [];
    tv + top + up
  }

  // ---------------------------------------------------------------------------
  // getCategoryConfig

  datatype CategoryConfig = CategoryConfig(title: string, content: seq<Item>, loading: bool)

  /** The title, list and loading flag of the category named `category`; null for any
      other string. */
  function GetCategoryConfig(category: string, s: AppState.State): (r: Option<CategoryConfig>)
    ensures r.Some? <==> ParseCategory(category).Some?
    ensures r.Some? ==>
      var c := ParseCategory(category).value;
      r.value.content == s.List(c.Slot()) && r.value.loading == LoadingFlag(s, category)
    ensures r.Some? ==> r.value.title != ""
  {
    if category == "popularMovies" then
      Some(CategoryConfig("\U{1F3AC} Popular Movies", s.popularMovies, LoadingFlag(s, "popularMovies")))
    else if category == "trendingMovies" then
      Some(CategoryConfig("\U{1F525} Trending Movies", s.trendingMovies, LoadingFlag(s, "trendingMovies")))
    else if category == "topRatedMovies" then
      Some(CategoryConfig("\U{2B50} Top Rated Movies", s.topRatedMovies, LoadingFlag(s, "topRatedMovies")))
    else if category == "upcomingMovies" then
      Some(CategoryConfig("\U{1F3AD} Coming Soon", s.upcomingMovies, LoadingFlag(s, "upcomingMovies")))
    else if category == "popularTVShows" then
      Some(CategoryConfig("\U{1F4FA} Popular TV Shows", s.popularTvShows, LoadingFlag(s, "popularTVShows")))
    else None
  }

  // ---------------------------------------------------------------------------
  // Paging in the detailed view

  /** The page after one click on the detailed view's button: the requested page when its
      fetch succeeded, the same page when it failed. */
  function PageAfterLoad(page: int, succeeded: bool): (r: int)
    ensures succeeded ==> r == page + 1
    ensures !succeeded ==> r == page
  {
    if succeeded then page + 1 else page
  }

  /** The number of successful loads. */
  function Successes(outcomes: seq<bool>): (n: nat)
    ensures n <= |outcomes|
  {
    if outcomes == [] then 0 else (if outcomes[0] then 1 else 0) + Successes(outcomes[1..])
  }

  /** The pages requested by consecutive clicks starting from `page`, given whether each
      fetch succeeded. */
  function RequestedPages(page: int, outcomes: seq<bool>): (r: seq<int>)
    ensures |r| == |outcomes|
    decreases |outcomes|
  {
    if outcomes == [] then []
    else [page + 1] + RequestedPages(PageAfterLoad(page, outcomes[0]), outcomes[1..])
  }

  lemma SuccessesOfPrefix(outcomes: seq<bool>, i: nat)
    requires 0 < i <= |outcomes|
    ensures Successes(outcomes[..i]) == (if outcomes[0] then 1 else 0) + Successes(outcomes[1..][..i - 1])
  {
    assert outcomes[..i][1..] == outcomes[1..][..i - 1];
  }

  /** Clicks never skip a page: each click asks for the page after the first one plus the
      number of earlier clicks that succeeded, so a failed page is asked for again. */
  lemma {:induction false} RequestedPagesNoSkip(page: int, outcomes: seq<bool>)
    ensures forall i :: 0 <= i < |outcomes| ==>
      RequestedPages(page, outcomes)[i] == page + 1 + Successes(outcomes[..i])
    decreases |outcomes|
  {
    if outcomes != [] {
      var next := PageAfterLoad(page, outcomes[0]);
      RequestedPagesNoSkip(next, outcomes[1..]);
      var r := RequestedPages(page, outcomes);
      forall i | 0 <= i < |outcomes|
        ensures r[i] == page + 1 + Successes(outcomes[..i])
      {
        if i == 0 {
          assert outcomes[..0] == [];
        } else {
          SuccessesOfPrefix(outcomes, i);
        }
      }
    }
  }

  /** The page the home sections' store lists hold: the fetch action creators call the
      service's list getters without a page, which default to page 1. */
  const HomeListPage := 1

  /** The page the "Load More" handlers open the detailed view on. */
  const DetailedViewStartPage := 2

  /** The home sections hold page 1, and "Load More" opens the detailed view on page 2, so
      the first click in the detailed view asks for page 3 and no click ever asks for the
      page right after the one on show: page 2 is never fetched. */
  lemma {:induction false} DetailedViewSkipsPageTwo(outcomes: seq<bool>)
    requires |outcomes| >= 1
    ensures RequestedPages(DetailedViewStartPage, outcomes)[0] == HomeListPage + 2
    ensures forall i :: 0 <= i < |outcomes| ==>
      RequestedPages(DetailedViewStartPage, outcomes)[i] > HomeListPage + 1
  {
    RequestedPagesNoSkip(DetailedViewStartPage, outcomes);
  }

  // ---------------------------------------------------------------------------
  // The page's own state

  /** A request to fetch `page` of a category's list. */
  datatype PageRequest = PageRequest(category: Category, page: int)

  class HomeView {
    var detailedView: Option<string>
    var currentPage: int
    var isMobile: bool
    var isLoadingMore: bool

    constructor ()
      ensures detailedView == None && currentPage == DetailedViewStartPage && !isMobile && !isLoadingMore
    {
      detailedView := None;
      currentPage := 2;
      isMobile := false;
      isLoadingMore := false;
    }

    /** `checkScreenSize`: narrow below 768 pixels. */
    method CheckScreenSize(innerWidth: int)
      modifies this
      ensures isMobile == (innerWidth < 768)
      ensures detailedView == old(detailedView) && currentPage == old(currentPage)
      ensures isLoadingMore == old(isLoadingMore)
    {
      isMobile := innerWidth < 768;
    }

    /** The five `handleLoadMore*` handlers: open the category's detailed view on page 2. */
    method HandleLoadMore(c: Category)
      modifies this
      ensures detailedView == Some(c.Name()) && currentPage == DetailedViewStartPage
      ensures ParseView(detailedView) == Some(c)
      ensures isMobile == old(isMobile) && isLoadingMore == old(isLoadingMore)
    {
      detailedView := Some(c.Name());
      currentPage := 2;
      ParseCategoryName(c);
    }

    /** `handleBackToHome`: refetch the open category's first page (the returned request),
        then close the view. */
    method HandleBackToHome() returns (refetch: Option<Category>)
      modifies this
      ensures refetch == ParseView(old(detailedView))
      ensures detailedView == None && currentPage == DetailedViewStartPage && !isLoadingMore
      ensures isMobile == old(isMobile)
    {
      refetch := None;
      if detailedView.Some? && detailedView.value != "" {
        var view := detailedView.value;
        if view == "popularMovies" {
          refetch := Some(PopularMovies);
        } else if view == "trendingMovies" {
          refetch := Some(TrendingMovies);
        } else if view == "topRatedMovies" {
          refetch := Some(TopRatedMovies);
        } else if view == "upcomingMovies" {
          refetch := Some(UpcomingMovies);
        } else if view == "popularTVShows" {
          refetch := Some(PopularTvShows);
        }
      }
      detailedView := None;
      currentPage := 2;
      isLoadingMore := false;
    }

    /** `handleLoadMoreInDetailedView`: ask for page `currentPage + 1` of the open category
        (`fetchMore` says whether that fetch succeeded); the page advances only on success,
        no request is made when no category is open, and loading ends in every case. */
    method HandleLoadMoreInDetailedView(fetchMore: PageRequest -> bool) returns (request: Option<PageRequest>)
      modifies this
      ensures request.Some? <==> ParseView(old(detailedView)).Some?
      ensures request.Some? ==> request.value == PageRequest(ParseView(old(detailedView)).value, old(currentPage) + 1)
      ensures request.Some? ==> currentPage == PageAfterLoad(old(currentPage), fetchMore(request.value))
      ensures request.None? ==> currentPage == old(currentPage)
      ensures !isLoadingMore
      ensures detailedView == old(detailedView) && isMobile == old(isMobile)
    {
      var nextPage := currentPage + 1;
      isLoadingMore := true;
      var fetchAction: Option<Category> := None;
      if detailedView == Some("popularMovies") {
        fetchAction := Some(PopularMovies);
      } else if detailedView == Some("trendingMovies") {
        fetchAction := Some(TrendingMovies);
      } else if detailedView == Some("topRatedMovies") {
        fetchAction := Some(TopRatedMovies);
      } else if detailedView == Some("upcomingMovies") {
        fetchAction := Some(UpcomingMovies);
      } else if detailedView == Some("popularTVShows") {
        fetchAction := Some(PopularTvShows);
      }
      if fetchAction.Some? {
        request := Some(PageRequest(fetchAction.value, nextPage));
        var succeeded := fetchMore(request.value);
        if succeeded {
          currentPage := nextPage;
        }
        isLoadingMore := false;
      } else {
        request := None;
        isLoadingMore := false;
      }
    }
  }
}
