/** The upcoming-movies screen: one fetch on creation, repeatable by `retry`. */
module UpcomingViewModel {
  import opened DomainModel
  import F = Failures

  datatype UiState<+T> = Initial | Loading | Success(data: T) | Error(exception: F.Throwable)

  /** The state a finished fetch leaves: the titles, or the repository's exception unchanged. */
  function Settled(result: F.Result<seq<Title>>): (s: UiState<seq<Title>>)
    ensures s.Success? <==> result.Success?
    ensures s.Success? ==> s.data == result.value
    ensures result.Failure? ==> s == Error(result.exception)
  {
    match result
    case Success(titles) => Success(titles)
    case Failure(e) => Error(e)
  }

  class UpcomingViewModel {
    var uiState: UiState<seq<Title>>
    /** Every value assigned to `uiState`, in order. */
    ghost var trace: seq<UiState<seq<Title>>>

    /** Starts in `Initial` and immediately loads. */
    constructor (upcoming: F.Result<seq<Title>>)
      ensures trace == [Initial, Loading, Settled(upcoming)]
      ensures uiState == Settled(upcoming)
    {
      uiState := Initial;
      trace := [Initial];
      new;
      LoadUpcomingMovies(upcoming);
    }

    /** `loadUpcomingMovies`: `Loading` first, then the settled state. */
    method LoadUpcomingMovies(upcoming: F.Result<seq<Title>>)
      modifies this
      ensures trace == old(trace) + [Loading, Settled(upcoming)]
      ensures uiState == Settled(upcoming)
    {
      uiState := Loading;
      trace := trace + [uiState];
      uiState := Settled(upcoming);
      trace := trace + [uiState];
    }

    /** `retry`: exactly `loadUpcomingMovies`, whatever the current state. */
    method Retry(upcoming: F.Result<seq<Title>>)
      modifies this
      ensures trace == old(trace) + [Loading, Settled(upcoming)]
      ensures uiState == Settled(upcoming)
    {
      LoadUpcomingMovies(upcoming);
    }
  }
}
