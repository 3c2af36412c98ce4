/** The detail screen: the title, its trailer id, and the bookmark operation's progress. */
module TitleDetailViewModel {
  import opened Wrappers
  import opened DomainModel
  import F = Failures

  datatype TitleDetailState = Loading | Success(title: Title) | Error(message: string)

  datatype VideoUiState = VideoLoading | VideoSuccess(videoId: string) | VideoError(message: string)

  datatype SaveState = Idle | Saving | Saved | SaveError(message: string)

  const TitleFallback: string := "Failed to load title details"
  const TrailerFallback: string := "Failed to load trailer"
  const SaveFallback: string := "Failed to save"

  /** A failure's message, or the fallback when the exception has none. */
  function FailureText(e: F.Throwable, fallback: string): (m: string)
    ensures F.MessageOf(e).Some? ==> m == F.MessageOf(e).value
    ensures F.MessageOf(e).None? ==> m == fallback
  {
    OrElse(F.MessageOf(e), fallback)
  }

  function VideoSettled(result: F.Result<string>): (s: VideoUiState)
    ensures s.VideoSuccess? <==> result.Success?
    ensures s.VideoSuccess? ==> s.videoId == result.value
    ensures result.Failure? ==> s == VideoError(FailureText(result.exception, TrailerFallback))
  {
    match result
    case Success(v) => VideoSuccess(v)
    case Failure(e) => VideoError(FailureText(e, TrailerFallback))
  }

  function SaveSettled(result: F.Result<()>): (s: SaveState)
    ensures s.Saved? <==> result.Success?
    ensures s.SaveError? ==> s.message == FailureText(result.exception, SaveFallback)
    ensures !s.Idle? && !s.Saving?
  {
    match result
    case Success(_) => Saved
    case Failure(e) => SaveError(FailureText(e, SaveFallback))
  }

  class TitleDetailViewModel {
    var titleState: TitleDetailState
    var videoState: VideoUiState
    var saveState: SaveState
    /** Every value assigned to each state field, in order. */
    ghost var titleTrace: seq<TitleDetailState>
    ghost var videoTrace: seq<VideoUiState>
    ghost var saveTrace: seq<SaveState>

    constructor ()
      ensures titleState == Loading && videoState == VideoLoading && saveState == Idle
      ensures titleTrace == [Loading] && videoTrace == [VideoLoading] && saveTrace == [Idle]
    {
      titleState := Loading;
      videoState := VideoLoading;
      saveState := Idle;
      titleTrace := [Loading];
      videoTrace := [VideoLoading];
      saveTrace := [Idle];
    }

    /**
     * `loadTitleDetails`: `Loading`, then the title or its error message. Only on success is the
     * trailer loaded, for the title's display name; `getTitleDetails`, `getTrailerVideoId` and
     * `displayTitle` stand for the repository's answers and `Title.displayTitle`.
     */
    method LoadTitleDetails(titleId: int, mediaType: MediaType,
                            getTitleDetails: (int, MediaType) -> F.Result<Title>,
                            getTrailerVideoId: string -> F.Result<string>,
                            displayTitle: Title -> string)
      modifies this`titleState, this`titleTrace, this`videoState, this`videoTrace
      ensures var r := getTitleDetails(titleId, mediaType);
        && (r.Success? ==>
          && titleState == Success(r.value)
          && titleTrace == old(titleTrace) + [Loading, Success(r.value)]
          && videoState == VideoSettled(getTrailerVideoId(displayTitle(r.value)))
          && videoTrace == old(videoTrace) + [VideoLoading, videoState])
        && (r.Failure? ==>
          && titleState == Error(FailureText(r.exception, TitleFallback))
          && titleTrace == old(titleTrace) + [Loading, titleState]
          && videoState == old(videoState) && videoTrace == old(videoTrace))
    {
      titleState := Loading;
      titleTrace := titleTrace + [titleState];
      var result := getTitleDetails(titleId, mediaType);
      match result {
        case Success(title) =>
          titleState := Success(title);
          titleTrace := titleTrace + [titleState];
          LoadVideoId(displayTitle(title), getTrailerVideoId);
        case Failure(e) =>
          titleState := Error(FailureText(e, TitleFallback));
          titleTrace := titleTrace + [titleState];
      }
    }

    /** `loadVideoId`: `VideoLoading`, then the video id or the error message. */
    method LoadVideoId(titleName: string, getTrailerVideoId: string -> F.Result<string>)
      modifies this`videoState, this`videoTrace
      ensures videoState == VideoSettled(getTrailerVideoId(titleName))
      ensures videoTrace == old(videoTrace) + [VideoLoading, videoState]
    {
      videoState := VideoLoading;
      videoTrace := videoTrace + [videoState];
      videoState := VideoSettled(getTrailerVideoId(titleName));
      videoTrace := videoTrace + [videoState];
    }

    /** `saveTitle`: `Saving`, then `Saved` or the error message. */
    method SaveTitle(title: Title, saveTitle: Title -> F.Result<()>)
      modifies this`saveState, this`saveTrace
      ensures saveState == SaveSettled(saveTitle(title))
      ensures saveTrace == old(saveTrace) + [Saving, saveState]
    {
      saveState := Saving;
      saveTrace := saveTrace + [saveState];
      saveState := SaveSettled(saveTitle(title));
      saveTrace := saveTrace + [saveState];
    }

    /** `resetSaveState`: back to `Idle`; nothing else changes. */
    method ResetSaveState()
      modifies this`saveState, this`saveTrace
      ensures saveState == Idle
      ensures saveTrace == old(saveTrace) + [Idle]
    {
      saveState := Idle;
      saveTrace := saveTrace + [Idle];
    }
  }
}
