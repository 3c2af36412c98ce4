/**
 * The repository: every remote operation is one API call whose outcome is mapped to domain
 * records and whose exceptions are classified into a `NetworkError`; saving and deleting write
 * the saved-titles table and return the storage exception unclassified.
 */
module TitleRepository {
  import opened Wrappers
  import opened Text
  import opened DomainModel
  import opened RemoteDto
  import opened Constants
  import opened TitleMappers
  import opened NetworkErrors
  import opened Failures
  import opened TitleDao

  /** What a call, or the block wrapped by `safeApiCall`, did: returned a value or threw. */
  datatype Attempt<+T> = Returned(value: T) | Raised(exception: Throwable)

  /**
   * The `when` in `safeApiCall`'s catch: unknown host, socket timeout and HTTP exceptions get
   * their own category; every other exception, including a `NetworkError` thrown inside the
   * block, becomes `Unknown` carrying that exception's message.
   */
  function Classify(e: Throwable): (err: NetworkError)
    ensures err.NoConnection? <==> e.UnknownHostException?
    ensures err.Timeout? <==> e.SocketTimeoutException?
    ensures err.BadResponse? <==> e.HttpException?
    ensures e.HttpException? ==> err.statusCode == e.code && err.responseMessage == Some(e.responseMessage)
    ensures err.Unknown? ==> err.errorMessage == MessageOf(e)
    ensures !err.ParseError? && !err.MissingConfig? && !err.UrlBuildFailed?
  {
    match e
    case UnknownHostException(_) => NoConnection
    case SocketTimeoutException(_) => Timeout
    case HttpException(code, msg, _) => BadResponse(code, Some(msg))
    case _ => Unknown(MessageOf(e))
  }

  /** A `ParseError` thrown inside the wrapped block reaches the caller as `Unknown` with the parse message. */
  lemma ParseErrorBecomesUnknown(jsonString: Option<string>)
    ensures Classify(NetworkException(ParseError(jsonString))) == Unknown(Some(ParseErrorMessage))
    ensures !IsRetryable(Classify(NetworkException(ParseError(jsonString))))
  {
  }

  /** A classified failure is retryable exactly for connectivity, timeout and HTTP 5xx exceptions. */
  lemma ClassifiedRetryable(e: Throwable)
    ensures IsRetryable(Classify(e)) <==>
      e.UnknownHostException? || e.SocketTimeoutException? || (e.HttpException? && IsServerError(e.code))
  {
  }

  /** `safeApiCall`: success with the block's value, or failure with the classified error. */
  function SafeApiCall<T>(block: Attempt<T>): (r: Result<T>)
    ensures r.Success? <==> block.Returned?
    ensures r.Success? ==> r.value == block.value
    ensures r.Failure? ==> r.exception == NetworkException(Classify(block.exception))
  {
    match block
    case Returned(v) => Success(v)
    case Raised(e) => Failure(NetworkException(Classify(e)))
  }

  /** The block of every list operation: map the page's results, dropping records without an id. */
  function ListBlock(call: Attempt<TmdbResponse>, fromString: Option<string> -> MediaType): (b: Attempt<seq<Title>>)
    ensures b.Returned? <==> call.Returned?
    ensures b.Returned? ==> b.value == DtoListToDomain(call.value.results, fromString)
    ensures b.Raised? ==> b.exception == call.exception
  {
    match call
    case Returned(response) => Returned(DtoListToDomain(response.results, fromString))
    case Raised(e) => Raised(e)
  }

  /** The outcome of a list operation for a given API call outcome. */
  function ListOutcome(call: Attempt<TmdbResponse>, fromString: Option<string> -> MediaType): (r: Result<seq<Title>>)
    ensures r.Success? <==> call.Returned?
    ensures r.Success? ==> r.value == DtoListToDomain(call.value.results, fromString)
    ensures r.Success? ==> |r.value| == CountWithId(call.value.results)
    ensures r.Failure? ==> r.exception == NetworkException(Classify(call.exception))
  {
    SafeApiCall(ListBlock(call, fromString))
  }

  /** `items?.firstOrNull()?.id?.videoId`. */
  function FirstVideoId(response: YoutubeSearchResponse): (v: Option<string>)
    ensures v.Some? <==>
      && response.items.Some? && |response.items.value| > 0
      && response.items.value[0].id.Some? && response.items.value[0].id.value.videoId.Some?
    ensures v.Some? ==> v.value == response.items.value[0].id.value.videoId.value
  {
    match response.items
    case None => None
    case Some(items) =>
      if |items| == 0 then None
      else match items[0].id
        case None => None
        case Some(yid) => yid.videoId
  }

  /** Only the first item is consulted: items after it never change the extracted id. */
  lemma FirstVideoIdIgnoresLaterItems(first: YoutubeItem, rest: seq<YoutubeItem>, other: seq<YoutubeItem>)
    ensures FirstVideoId(YoutubeSearchResponse(Some([first] + rest))) == FirstVideoId(YoutubeSearchResponse(Some([first] + other)))
  {
  }

  /** The metadata API: one function per endpoint, from its path and query arguments to the call's outcome. */
  datatype TmdbApi = TmdbApi(
    getTrending: string -> Attempt<TmdbResponse>,
    getTopRated: string -> Attempt<TmdbResponse>,
    getUpcoming: Attempt<TmdbResponse>,
    search: (string, string) -> Attempt<TmdbResponse>,
    getTitleDetails: (string, int) -> Attempt<TitleDto>)

  class TitleRepositoryImpl {
    const tmdbApi: TmdbApi
    /** The video search API, from the free-text query to the call's outcome. */
    const youtubeApi: string -> Attempt<YoutubeSearchResponse>
    const titleDao: TitleTable
    const codec: MediaTypeCodec

    constructor (tmdbApi: TmdbApi, youtubeApi: string -> Attempt<YoutubeSearchResponse>, titleDao: TitleTable, codec: MediaTypeCodec)
      ensures this.tmdbApi == tmdbApi && this.youtubeApi == youtubeApi && this.titleDao == titleDao && this.codec == codec
    {
      this.tmdbApi := tmdbApi;
      this.youtubeApi := youtubeApi;
      this.titleDao := titleDao;
      this.codec := codec;
    }

    /** The details endpoint for `mediaType.value` and the id; a record without an id is a parse failure. */
    function DetailsBlock(titleId: int, mediaType: MediaType): (b: Attempt<Title>)
      ensures var call := tmdbApi.getTitleDetails(codec.value(mediaType), titleId);
        && (b.Returned? <==> call.Returned? && call.value.id.Some?)
        && (b.Returned? ==> Some(b.value) == DtoToDomain(call.value, codec.fromString))
        && (call.Raised? ==> b == Raised(call.exception))
        && (call.Returned? && call.value.id.None? ==>
              b == Raised(NetworkException(ParseError(Some("Failed to parse title details for ID: " + IntToDecimal(titleId))))))
    {
      match tmdbApi.getTitleDetails(codec.value(mediaType), titleId)
      case Raised(e) => Raised(e)
      case Returned(dto) =>
        match DtoToDomain(dto, codec.fromString)
        case Some(t) => Returned(t)
        case None => Raised(NetworkException(ParseError(Some("Failed to parse title details for ID: " + IntToDecimal(titleId)))))
    }

    /**
     * `getTitleDetails`: succeeds exactly when the call returns a record with an id; a record
     * without one surfaces as `Unknown` with the parse message, not as `ParseError`.
     */
    function GetTitleDetails(titleId: int, mediaType: MediaType): (r: Result<Title>)
      ensures var call := tmdbApi.getTitleDetails(codec.value(mediaType), titleId);
        && (r.Success? <==> call.Returned? && call.value.id.Some?)
        && (r.Success? ==> Some(r.value) == DtoToDomain(call.value, codec.fromString))
        && (call.Raised? ==> r == Failure(NetworkException(Classify(call.exception))))
        && (call.Returned? && call.value.id.None? ==> r == Failure(NetworkException(Unknown(Some(ParseErrorMessage)))))
    {
      SafeApiCall(DetailsBlock(titleId, mediaType))
    }

    /** `getTrendingMovies`: the trending endpoint for "movie". */
    function GetTrendingMovies(): (r: Result<seq<Title>>)
      ensures r == ListOutcome(tmdbApi.getTrending(MediaMovie), codec.fromString)
    {
      SafeApiCall(ListBlock(tmdbApi.getTrending(MediaMovie), codec.fromString))
    }

    /** `getTrendingTV`: the trending endpoint for "tv". */
    function GetTrendingTV(): (r: Result<seq<Title>>)
      ensures r == ListOutcome(tmdbApi.getTrending(MediaTv), codec.fromString)
    {
      SafeApiCall(ListBlock(tmdbApi.getTrending(MediaTv), codec.fromString))
    }

    /** `getTopRatedMovies`: the top-rated endpoint for "movie". */
    function GetTopRatedMovies(): (r: Result<seq<Title>>)
      ensures r == ListOutcome(tmdbApi.getTopRated(MediaMovie), codec.fromString)
    {
      SafeApiCall(ListBlock(tmdbApi.getTopRated(MediaMovie), codec.fromString))
    }

    /** `getTopRatedTV`: the top-rated endpoint for "tv". */
    function GetTopRatedTV(): (r: Result<seq<Title>>)
      ensures r == ListOutcome(tmdbApi.getTopRated(MediaTv), codec.fromString)
    {
      SafeApiCall(ListBlock(tmdbApi.getTopRated(MediaTv), codec.fromString))
    }

    /** `getUpcomingMovies`: the upcoming endpoint. */
    function GetUpcomingMovies(): (r: Result<seq<Title>>)
      ensures r == ListOutcome(tmdbApi.getUpcoming, codec.fromString)
    {
      SafeApiCall(ListBlock(tmdbApi.getUpcoming, codec.fromString))
    }

    /** `searchMovies`: the search endpoint for "movie" with the query unchanged. */
    function SearchMovies(query: string): (r: Result<seq<Title>>)
      ensures r == ListOutcome(tmdbApi.search(MediaMovie, query), codec.fromString)
    {
      SafeApiCall(ListBlock(tmdbApi.search(MediaMovie, query), codec.fromString))
    }

    /** `searchTV`: the search endpoint for "tv" with the query unchanged. */
    function SearchTV(query: string): (r: Result<seq<Title>>)
      ensures r == ListOutcome(tmdbApi.search(MediaTv, query), codec.fromString)
    {
      SafeApiCall(ListBlock(tmdbApi.search(MediaTv, query), codec.fromString))
    }

    /** The block of `getTrailerVideoId`: the first video id of the search, or a parse error naming the title. */
    function TrailerBlock(titleName: string): (b: Attempt<string>)
      ensures var call := youtubeApi(BuildTrailerSearchQuery(titleName));
        && (b.Returned? <==> call.Returned? && FirstVideoId(call.value).Some?)
        && (b.Returned? ==> b.value == FirstVideoId(call.value).value)
        && (call.Raised? ==> b == Raised(call.exception))
        && (call.Returned? && FirstVideoId(call.value).None? ==>
              b == Raised(NetworkException(ParseError(Some("No video ID found for " + titleName)))))
    {
      match youtubeApi(BuildTrailerSearchQuery(titleName))
      case Raised(e) => Raised(e)
      case Returned(response) =>
        match FirstVideoId(response)
        case Some(v) => Returned(v)
        case None => Raised(NetworkException(ParseError(Some("No video ID found for " + titleName))))
    }

    /**
     * `getTrailerVideoId`: searches for "<name> trailer" and returns the first item's video id;
     * a response without one surfaces as `Unknown` with the parse message.
     */
    function GetTrailerVideoId(titleName: string): (r: Result<string>)
      ensures var call := youtubeApi(BuildTrailerSearchQuery(titleName));
        && (r.Success? <==> call.Returned? && FirstVideoId(call.value).Some?)
        && (r.Success? ==> r.value == FirstVideoId(call.value).value)
        && (call.Raised? ==> r == Failure(NetworkException(Classify(call.exception))))
        && (call.Returned? && FirstVideoId(call.value).None? ==> r == Failure(NetworkException(Unknown(Some(ParseErrorMessage)))))
    {
      SafeApiCall(TrailerBlock(titleName))
    }

    /**
     * `saveTitle`: writes the title's row, stamped with `now`, replacing any row with its id.
     * `storageFault` is the exception the insert throws, if any; it is returned as is and the
     * table is left unchanged.
     */
    method SaveTitle(title: Title, now: int, storageFault: Option<Throwable>) returns (r: Result<()>)
      requires titleDao.Valid()
      modifies titleDao
      ensures titleDao.Valid()
      ensures storageFault.None? ==> r == Success(()) && titleDao.rows == old(titleDao.rows)[title.id := TitleToEntity(title, codec.value, now)]
      ensures storageFault.Some? ==> r == Failure(storageFault.value) && titleDao.rows == old(titleDao.rows)
    {
      var entity := TitleToEntity(title, codec.value, now);
      if storageFault.Some? {
        return Failure(storageFault.value);
      }
      titleDao.InsertTitle(entity);
      r := Success(());
    }

    /** `deleteTitle`: removes the row with the title's id; a storage exception is returned as is. */
    method DeleteTitle(title: Title, now: int, storageFault: Option<Throwable>) returns (r: Result<()>)
      requires titleDao.Valid()
      modifies titleDao
      ensures titleDao.Valid()
      ensures storageFault.None? ==> r == Success(()) && titleDao.rows == old(titleDao.rows) - {title.id}
      ensures storageFault.Some? ==> r == Failure(storageFault.value) && titleDao.rows == old(titleDao.rows)
    {
      var entity := TitleToEntity(title, codec.value, now);
      if storageFault.Some? {
        return Failure(storageFault.value);
      }
      titleDao.DeleteTitle(entity);
      r := Success(());
    }

    /**
     * One snapshot of `getSavedTitles()`: the table's listing mapped to domain titles, so every
     * saved row appears once, ordered by title.
     */
    method GetSavedTitles() returns (titles: seq<Title>)
      requires titleDao.Valid()
      ensures |titles| == titleDao.GetSavedTitlesCount()
      ensures forall i :: 0 <= i < |titles| ==>
        titles[i].id in titleDao.rows && titles[i] == EntityToDomain(titleDao.rows[titles[i].id], codec.fromString)
      ensures forall id :: id in titleDao.rows <==> exists i :: 0 <= i < |titles| && titles[i].id == id
      ensures forall i, j :: 0 <= i < j < |titles| ==> titles[i].id != titles[j].id
      ensures forall i, j :: 0 <= i < j < |titles| ==> TitleLe(titles[i].title, titles[j].title)
    {
      var listing := titleDao.GetAllTitles();
      titles := EntityListToDomain(listing, codec.fromString);
      assert forall i :: 0 <= i < |titles| ==> titles[i].id == listing[i].id;
    }
  }
}
