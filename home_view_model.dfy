/** The home feed: four lists fetched once, each degrading to empty on failure, plus a hero title. */
module HomeViewModel {
  import opened Wrappers
  import opened DomainModel
  import opened Failures

  datatype HomeUiState = HomeUiState(
    trendingMovies: seq<Title>,
    trendingTV: seq<Title>,
    topRatedMovies: seq<Title>,
    topRatedTV: seq<Title>,
    heroTitle: Option<Title>,
    isLoading: bool,
    error: Option<string>)

  const InitialHomeUiState: HomeUiState := HomeUiState([], [], [], [], None, false, None)

  /** The state set before the repository is consulted. */
  function LoadingState(s: HomeUiState): (r: HomeUiState)
    ensures r.isLoading && r.error.None?
    ensures r.(isLoading := s.isLoading, error := s.error) == s
  {
    s.(isLoading := true, error := None)
  }

  /**
   * The state after all four fetches settled: a failed fetch leaves an empty list in its slot
   * (never a screen-level error), the hero is a member of the trending movies or null exactly
   * when there are none, loading is over and the error cleared.
   */
  ghost predicate Settled(s: HomeUiState, trendingMovies: Result<seq<Title>>, trendingTV: Result<seq<Title>>,
                          topRatedMovies: Result<seq<Title>>, topRatedTV: Result<seq<Title>>)
  {
    && s.trendingMovies == GetOrElse(trendingMovies, [])
    && s.trendingTV == GetOrElse(trendingTV, [])
    && s.topRatedMovies == GetOrElse(topRatedMovies, [])
    && s.topRatedTV == GetOrElse(topRatedTV, [])
    && (s.heroTitle.None? <==> s.trendingMovies == [])
    && (s.heroTitle.Some? ==> s.heroTitle.value in s.trendingMovies)
    && !s.isLoading
    && s.error.None?
  }

  /**
   * `randomOrNull() ?: firstOrNull()`: some element of the list, or null when it is empty. The
   * random choice is a nondeterministic one.
   */
  method PickHero(titles: seq<Title>) returns (hero: Option<Title>)
    ensures hero.None? <==> titles == []
    ensures hero.Some? ==> hero.value in titles
  {
    if titles == [] {
      hero := None;
    } else {
      var i :| 0 <= i < |titles|;
      hero := Some(titles[i]);
    }
  }

  class HomeViewModel {
    var uiState: HomeUiState
    /** Every value assigned to `uiState`, in order. */
    ghost var trace: seq<HomeUiState>

    /** `init { loadTitles() }`, given the four fetch outcomes. */
    constructor (trendingMovies: Result<seq<Title>>, trendingTV: Result<seq<Title>>,
                 topRatedMovies: Result<seq<Title>>, topRatedTV: Result<seq<Title>>)
      ensures trace == [InitialHomeUiState, LoadingState(InitialHomeUiState), uiState]
      ensures Settled(uiState, trendingMovies, trendingTV, topRatedMovies, topRatedTV)
    {
      uiState := InitialHomeUiState;
      trace := [InitialHomeUiState];
      new;
      LoadTitles(trendingMovies, trendingTV, topRatedMovies, topRatedTV);
    }

    /**
     * `loadTitles`: does nothing once trending movies are loaded; otherwise sets loading, then
     * stores the four lists (failures as empty lists) and the hero.
     */
    method LoadTitles(trendingMovies: Result<seq<Title>>, trendingTV: Result<seq<Title>>,
                      topRatedMovies: Result<seq<Title>>, topRatedTV: Result<seq<Title>>)
      modifies this
      ensures old(uiState.trendingMovies) != [] ==> uiState == old(uiState) && trace == old(trace)
      ensures old(uiState.trendingMovies) == [] ==>
        && trace == old(trace) + [LoadingState(old(uiState)), uiState]
        && Settled(uiState, trendingMovies, trendingTV, topRatedMovies, topRatedTV)
    {
      if uiState.trendingMovies != [] {
        return;
      }
      uiState := LoadingState(uiState);
      trace := trace + [uiState];

      var movies := GetOrElse(trendingMovies, []);
      var tv := GetOrElse(trendingTV, []);
      var topMovies := GetOrElse(topRatedMovies, []);
      var topTv := GetOrElse(topRatedTV, []);
      var hero := PickHero(movies);

      uiState := uiState.(
        trendingMovies := movies,
        trendingTV := tv,
        topRatedMovies := topMovies,
        topRatedTV := topTv,
        heroTitle := hero,
        isLoading := false,
        error := None);
      trace := trace + [uiState];
    }

    /** `retry`: exactly `loadTitles`, guard included. */
    method Retry(trendingMovies: Result<seq<Title>>, trendingTV: Result<seq<Title>>,
                 topRatedMovies: Result<seq<Title>>, topRatedTV: Result<seq<Title>>)
      modifies this
      ensures old(uiState.trendingMovies) != [] ==> uiState == old(uiState) && trace == old(trace)
      ensures old(uiState.trendingMovies) == [] ==>
        && trace == old(trace) + [LoadingState(old(uiState)), uiState]
        && Settled(uiState, trendingMovies, trendingTV, topRatedMovies, topRatedTV)
    {
      LoadTitles(trendingMovies, trendingTV, topRatedMovies, topRatedTV);
    }
  }
}
