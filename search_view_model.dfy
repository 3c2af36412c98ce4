/** The search screen: a query, a movie/TV toggle, and the list the last search produced. */
module SearchViewModel {
  import opened Wrappers
  import opened Text
  import opened DomainModel
  import F = Failures

  /** The four repository operations a search can issue. */
  datatype SearchRequest = TrendingMovies | TrendingTV | SearchMovies(query: string) | SearchTV(query: string)

  /**
   * The dispatch of `executeSearch`: a blank query asks for trending titles, any other query
   * searches for it; the toggle picks movies or TV.
   */
  function RequestFor(query: string, isSearchingMovies: bool): (req: SearchRequest)
    ensures req.TrendingMovies? || req.TrendingTV? <==> IsBlank(query)
    ensures req.TrendingMovies? || req.SearchMovies? <==> isSearchingMovies
    ensures req.SearchMovies? || req.SearchTV? ==> req.query == query
  {
    if IsBlank(query) then
      if isSearchingMovies then TrendingMovies else TrendingTV
    else
      if isSearchingMovies then SearchMovies(query) else SearchTV(query)
  }

  /** The five observable state fields at one moment. */
  datatype SearchState = SearchState(
    searchQuery: string,
    searchResults: seq<Title>,
    isLoading: bool,
    errorMessage: Option<string>,
    isSearchingMovies: bool)

  /** The state once a search has started: loading, error cleared, nothing else touched. */
  function Started(s: SearchState): (r: SearchState)
    ensures r.isLoading && r.errorMessage.None?
    ensures r.(isLoading := s.isLoading, errorMessage := s.errorMessage) == s
  {
    s.(isLoading := true, errorMessage := None)
  }

  /**
   * The state once a search has finished: on success the titles replace the results; on failure
   * the exception's message is shown and the results are emptied; loading is over.
   */
  function Finished(s: SearchState, result: F.Result<seq<Title>>): (r: SearchState)
    ensures !r.isLoading
    ensures r.searchQuery == s.searchQuery && r.isSearchingMovies == s.isSearchingMovies
    ensures result.Success? ==> r.searchResults == result.value && r.errorMessage == s.errorMessage
    ensures result.Failure? ==> r.searchResults == [] && r.errorMessage == F.MessageOf(result.exception)
  {
    match result
    case Success(titles) => s.(searchResults := titles, isLoading := false)
    case Failure(e) => s.(errorMessage := F.MessageOf(e), searchResults := [], isLoading := false)
  }

  class SearchViewModel {
    var searchQuery: string
    var searchResults: seq<Title>
    var isLoading: bool
    var errorMessage: Option<string>
    var isSearchingMovies: bool
    /** The last query the debounced query flow let through; `None` before its first emission. */
    var lastEmittedQuery: Option<string>
    /** The state after each step of every operation, in order. */
    ghost var trace: seq<SearchState>

    function State(): SearchState
      reads this
    {
      SearchState(searchQuery, searchResults, isLoading, errorMessage, isSearchingMovies)
    }

    /** Empty query, no results, not loading, no error, searching movies. */
    constructor ()
      ensures State() == SearchState("", [], false, None, true)
      ensures lastEmittedQuery.None?
      ensures trace == [State()]
    {
      lastEmittedQuery := None;
      searchQuery := "";
      searchResults := [];
      isLoading := false;
      errorMessage := None;
      isSearchingMovies := true;
      trace := [SearchState("", [], false, None, true)];
    }

    /** `onSearchQueryChange`: only the query changes. */
    method OnSearchQueryChange(query: string)
      modifies this`searchQuery, this`trace
      ensures State() == old(State()).(searchQuery := query)
      ensures trace == old(trace) + [State()]
    {
      searchQuery := query;
      trace := trace + [State()];
    }

    /**
     * `executeSearch`, run to completion: issues the request `RequestFor` picks for the current
     * query and toggle; `respond` gives the repository's outcome for each request.
     */
    method ExecuteSearch(respond: SearchRequest -> F.Result<seq<Title>>)
      modifies this`searchResults, this`isLoading, this`errorMessage, this`trace
      ensures var result := respond(RequestFor(old(searchQuery), old(isSearchingMovies)));
        && trace == old(trace) + [Started(old(State())), Finished(Started(old(State())), result)]
        && State() == Finished(Started(old(State())), result)
    {
      isLoading := true;
      errorMessage := None;
      trace := trace + [State()];
      var result := respond(RequestFor(searchQuery, isSearchingMovies));
      match result {
        case Success(titles) =>
          searchResults := titles;
        case Failure(e) =>
          errorMessage := F.MessageOf(e);
          searchResults := [];
      }
      isLoading := false;
      trace := trace + [State()];
    }

    /**
     * The debounced query flow emitting: the caller decides when the query has been still for
     * long enough; a query equal to the previous emission is dropped, any other one searches.
     */
    method OnQuerySettled(respond: SearchRequest -> F.Result<seq<Title>>)
      modifies this`searchResults, this`isLoading, this`errorMessage, this`lastEmittedQuery, this`trace
      ensures old(lastEmittedQuery) == Some(old(searchQuery)) ==>
        State() == old(State()) && lastEmittedQuery == old(lastEmittedQuery) && trace == old(trace)
      ensures old(lastEmittedQuery) != Some(old(searchQuery)) ==>
        var result := respond(RequestFor(old(searchQuery), old(isSearchingMovies)));
        && lastEmittedQuery == Some(old(searchQuery))
        && trace == old(trace) + [Started(old(State())), Finished(Started(old(State())), result)]
        && State() == Finished(Started(old(State())), result)
    {
      if lastEmittedQuery != Some(searchQuery) {
        lastEmittedQuery := Some(searchQuery);
        ExecuteSearch(respond);
      }
    }

    /** `toggleMediaType`: flips movies/TV, then searches again with the current query. */
    method ToggleMediaType(respond: SearchRequest -> F.Result<seq<Title>>)
      modifies this`searchResults, this`isLoading, this`errorMessage, this`isSearchingMovies, this`trace
      ensures isSearchingMovies == !old(isSearchingMovies)
      ensures var toggled := old(State()).(isSearchingMovies := !old(isSearchingMovies));
        var result := respond(RequestFor(old(searchQuery), !old(isSearchingMovies)));
        && trace == old(trace) + [toggled, Started(toggled), Finished(Started(toggled), result)]
        && State() == Finished(Started(toggled), result)
    {
      isSearchingMovies := !isSearchingMovies;
      trace := trace + [State()];
      ExecuteSearch(respond);
    }
  }
}
