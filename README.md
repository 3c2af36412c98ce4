# ViddaMovie core, modelled in Dafny

ViddaMovie is an Android client for browsing films and TV series. It fetches lists and details from
a metadata API, finds a trailer through a video search API, and keeps a local table of bookmarked
("saved") titles. This project models its core:

- the URL and query helpers (`Constants`);
- the mappers between the remote record, the domain `Title` and the stored row (`TitleMappers`);
- the closed set of network failure categories with their messages and retry advice (`NetworkErrors`);
- the repository that wraps every remote call and classifies its exceptions (`TitleRepository`);
- the saved-titles table and its queries (`TitleDao`);
- the generic loading/success/error wrapper (`Resources`);
- the navigation routes (`Screens`);
- the four screen state holders (`HomeViewModel`, `SearchViewModel`, `TitleDetailViewModel`,
  `UpcomingViewModel`).

Values become datatypes and pure operations become functions. Anything that updates state in place
is a class: the table (`TitleDao.TitleTable`, a map from id to row), the repository (which writes
that table), and each view model, whose observable state flows are fields. Each view model also has
a ghost trace of every state it publishes, so the intermediate `Loading`/`Saving` states are part of
each contract. A coroutine launched by a view model runs to completion inside the method. The
repository's answers are parameters of the view-model methods.

Remote APIs are function-valued fields of the repository. Each one gives, for its arguments, either
a returned value or a thrown exception. `MediaType.value`, `MediaType.fromString` and
`Title.displayTitle` are not part of this model; they are parameters (`DomainModel.MediaTypeCodec`
and an arrow). The `ORDER BY title` of the table is SQLite's BINARY collation (code-point
lexicographic order, NULL first), and it is proved to be a total preorder.

Two behaviours of the code worth noting:

- A details response without an id, or a trailer search without a video id, throws a `ParseError`
  inside the block that `safeApiCall` wraps. The catch-all branch of `safeApiCall` then re-wraps
  it, so callers receive `Unknown("Failed to parse API response")`, not a `ParseError`
  (`TitleRepository.ParseErrorBecomesUnknown`).
- The repository passes a media type to `toDomain`/`toDomainFromDto`. The mappers shown take none
  and read the media kind from the record's own `media_type`. The model uses the mappers as they
  are written: list and details results take their media kind from the record.

## Model

| member | source | states |
|---|---|---|
| Constants.GetFullPosterUrl | app/src/main/java/com/example/viddamovie/util/Constants.kt:39-49 | null stays null; a path starting with "http" is returned unchanged; any other path gets the w500 image base prepended; a result always starts with "http" and ends with the input |
| Constants.GetFullPosterUrlIdempotent | app/src/main/java/com/example/viddamovie/util/Constants.kt:39-49 | applying the poster-URL normalisation twice equals applying it once |
| Constants.BuildTrailerSearchQuery | app/src/main/java/com/example/viddamovie/util/Constants.kt:51-53 | the query is the title, a space and "trailer": it starts with the title, ends with " trailer" and is 8 characters longer |
| Constants.BuildTrailerSearchQueryInjective | app/src/main/java/com/example/viddamovie/util/Constants.kt:51-53 | different titles give different search queries |
| Constants.WithFullPosterUrls | app/src/main/java/com/example/viddamovie/util/Constants.kt:56-62 | same length and order; each title is unchanged except its poster path, which is normalised |
| Constants.WithFullPosterUrlsIdempotent | app/src/main/java/com/example/viddamovie/util/Constants.kt:56-62 | normalising a list's posters twice equals doing it once |
| TitleMappers.DtoToDomain | app/src/main/java/com/example/viddamovie/data/mapper/TitleMappers.kt:8-24 | null exactly when the record has no id; otherwise id and text fields copied, poster and backdrop normalised, media kind parsed from the record's media_type |
| TitleMappers.DtoToDomainIgnoresUnusedFields | app/src/main/java/com/example/viddamovie/data/mapper/TitleMappers.kt:8-24 | the first-air date and vote count never influence the domain title |
| TitleMappers.CountWithId | app/src/main/java/com/example/viddamovie/data/mapper/TitleMappers.kt:26-29 | the number of records that survive the mapping is at most the number of records |
| TitleMappers.DtoListToDomain | app/src/main/java/com/example/viddamovie/data/mapper/TitleMappers.kt:26-29 | the result has one title per record that carries an id |
| TitleMappers.DtoListToDomainAppend | app/src/main/java/com/example/viddamovie/data/mapper/TitleMappers.kt:26-29 | mapping a concatenation is the concatenation of the mappings (order preserved) |
| TitleMappers.DtoListToDomainMembers | app/src/main/java/com/example/viddamovie/data/mapper/TitleMappers.kt:26-29 | a title is in the result if and only if some record maps to it |
| TitleMappers.DtoListToDomainKeepsAll | app/src/main/java/com/example/viddamovie/data/mapper/TitleMappers.kt:26-29 | when every record has an id, nothing is dropped and the i-th title comes from the i-th record |
| TitleMappers.TitleToEntity | app/src/main/java/com/example/viddamovie/data/mapper/TitleMappers.kt:31-44 | the row keeps the id, title, name, overview, both paths, release date and vote average unchanged, stores `MediaType.value` and is stamped with the current time |
| TitleMappers.EntityToDomain | app/src/main/java/com/example/viddamovie/data/mapper/TitleMappers.kt:46-58 | id, title, name, overview, both paths (no URL normalisation), release date and vote average copied unchanged; media kind parsed from the stored string |
| TitleMappers.EntityRoundTrip | app/src/main/java/com/example/viddamovie/data/mapper/TitleMappers.kt:31-58 | storing and reading back a title gives it back except for its media kind, and entirely when `fromString` reads back what `value` writes |
| TitleMappers.EntityListToDomain | app/src/main/java/com/example/viddamovie/data/mapper/TitleMappers.kt:60-62 | same length; the i-th title is the i-th row read back |
| NetworkErrors.IsClientError | app/src/main/java/com/example/viddamovie/util/NetworkError.kt:16 | true iff the status class (the hundreds digit) is 4, i.e. 400 <= code <= 499 |
| NetworkErrors.IsServerError | app/src/main/java/com/example/viddamovie/util/NetworkError.kt:17 | true iff the status class (the hundreds digit) is 5, i.e. 500 <= code <= 599 |
| NetworkErrors.ClientAndServerErrorsDisjoint | app/src/main/java/com/example/viddamovie/util/NetworkError.kt:16-17 | no status code is both a client error (400..499) and a server error (500..599) |
| NetworkErrors.Message | app/src/main/java/com/example/viddamovie/util/NetworkError.kt:3-60 | the exception message of every variant: "HTTP Error <code>: <message or 'Unknown error'>", "Failed to build URL" with ": <url>" exactly when a URL is known, the fixed missing-configuration, no-connection, timeout and parse texts, the unknown error's own message or its default |
| NetworkErrors.BadResponseMessageInjective | app/src/main/java/com/example/viddamovie/util/NetworkError.kt:8-15 | two bad responses with the same message have the same status code and the same (defaulted) response message |
| NetworkErrors.ParseErrorMessageIgnoresJson | app/src/main/java/com/example/viddamovie/util/NetworkError.kt:46-52 | a parse error's message never depends on the captured text |
| NetworkErrors.UserMessage | app/src/main/java/com/example/viddamovie/util/NetworkError.kt:63-79 | a bad response reads "Invalid request" iff 4xx, "Server error" iff 5xx, "Network error occurred." otherwise; each of missing configuration, bad URL, no connection, timeout and parse error has its own fixed text; an unknown error shows its own message or the fallback |
| NetworkErrors.IsRetryable | app/src/main/java/com/example/viddamovie/util/NetworkError.kt:81-90 | retryable exactly for no connection, timeout and 5xx responses |
| Failures.MessageOf | app/src/main/java/com/example/viddamovie/util/NetworkError.kt:3-6 | a network error's message is the one its variant computes; any other exception's message is its own |
| TitleRepository.Classify | app/src/main/java/com/example/viddamovie/data/repository/TitleRepositoryImpl.kt:155-164 | unknown host iff NoConnection, socket timeout iff Timeout, HTTP exception iff BadResponse with its code and message; everything else is Unknown with the exception's message; never ParseError, MissingConfig or UrlBuildFailed |
| TitleRepository.ParseErrorBecomesUnknown | app/src/main/java/com/example/viddamovie/data/repository/TitleRepositoryImpl.kt:155-164 | a ParseError thrown inside a wrapped call reaches the caller as Unknown with the parse message, and is not retryable |
| TitleRepository.ClassifiedRetryable | app/src/main/java/com/example/viddamovie/data/repository/TitleRepositoryImpl.kt:155-164 | a classified failure is retryable iff the exception was an unknown host, a socket timeout or an HTTP 5xx |
| TitleRepository.SafeApiCall | app/src/main/java/com/example/viddamovie/data/repository/TitleRepositoryImpl.kt:149-167 | success iff the block returned, with its value; otherwise failure with the classified error |
| TitleRepository.ListBlock | app/src/main/java/com/example/viddamovie/data/repository/TitleRepositoryImpl.kt:41-45 | the wrapped block of a list call returns iff the API call returns, with the page's results mapped and id-less records dropped; a thrown exception passes through unchanged |
| TitleRepository.ListOutcome | app/src/main/java/com/example/viddamovie/data/repository/TitleRepositoryImpl.kt:39-47 | a list call succeeds iff the API call returned; the titles are the page's results with id-less records dropped; failures are classified |
| TitleRepository.FirstVideoId | app/src/main/java/com/example/viddamovie/data/repository/TitleRepositoryImpl.kt:117 | a video id is found iff the items exist, are non-empty, and the first item has an id with a video id; it is that one |
| TitleRepository.FirstVideoIdIgnoresLaterItems | app/src/main/java/com/example/viddamovie/data/repository/TitleRepositoryImpl.kt:117 | items after the first never change the extracted video id |
| TitleRepository.TitleRepositoryImpl.constructor | app/src/main/java/com/example/viddamovie/data/repository/TitleRepositoryImpl.kt:19-24 | the repository holds the two APIs, the table and the media-kind codec it is given |
| TitleRepository.TitleRepositoryImpl.DetailsBlock | app/src/main/java/com/example/viddamovie/data/repository/TitleRepositoryImpl.kt:28-35 | calls the details endpoint with `mediaType.value` and the id; returns the mapped title iff the record has an id; an id-less record throws a ParseError naming the id; a thrown exception passes through unchanged |
| TitleRepository.TitleRepositoryImpl.GetTitleDetails | app/src/main/java/com/example/viddamovie/data/repository/TitleRepositoryImpl.kt:26-37 | asks the details endpoint for `mediaType.value` and the id; succeeds iff it returns a record with an id, with that record mapped; a thrown exception is classified; an id-less record gives Unknown with the parse message |
| TitleRepository.TitleRepositoryImpl.GetTrendingMovies | app/src/main/java/com/example/viddamovie/data/repository/TitleRepositoryImpl.kt:39-47 | the list outcome of the trending endpoint called with "movie" |
| TitleRepository.TitleRepositoryImpl.GetTrendingTV | app/src/main/java/com/example/viddamovie/data/repository/TitleRepositoryImpl.kt:49-57 | the list outcome of the trending endpoint called with "tv" |
| TitleRepository.TitleRepositoryImpl.GetTopRatedMovies | app/src/main/java/com/example/viddamovie/data/repository/TitleRepositoryImpl.kt:59-67 | the list outcome of the top-rated endpoint called with "movie" |
| TitleRepository.TitleRepositoryImpl.GetTopRatedTV | app/src/main/java/com/example/viddamovie/data/repository/TitleRepositoryImpl.kt:69-77 | the list outcome of the top-rated endpoint called with "tv" |
| TitleRepository.TitleRepositoryImpl.GetUpcomingMovies | app/src/main/java/com/example/viddamovie/data/repository/TitleRepositoryImpl.kt:79-86 | the list outcome of the upcoming endpoint |
| TitleRepository.TitleRepositoryImpl.SearchMovies | app/src/main/java/com/example/viddamovie/data/repository/TitleRepositoryImpl.kt:88-97 | the list outcome of the search endpoint called with "movie" and the query unchanged |
| TitleRepository.TitleRepositoryImpl.SearchTV | app/src/main/java/com/example/viddamovie/data/repository/TitleRepositoryImpl.kt:99-108 | the list outcome of the search endpoint called with "tv" and the query unchanged |
| TitleRepository.TitleRepositoryImpl.TrailerBlock | app/src/main/java/com/example/viddamovie/data/repository/TitleRepositoryImpl.kt:112-120 | searches for "<name> trailer"; returns the first video id iff the response has one; otherwise throws a ParseError naming the title; a thrown exception passes through unchanged |
| TitleRepository.TitleRepositoryImpl.GetTrailerVideoId | app/src/main/java/com/example/viddamovie/data/repository/TitleRepositoryImpl.kt:110-122 | searches for "<name> trailer"; succeeds iff the response yields a first video id, which is returned; a thrown exception is classified; no id gives Unknown with the parse message |
| TitleRepository.TitleRepositoryImpl.SaveTitle | app/src/main/java/com/example/viddamovie/data/repository/TitleRepositoryImpl.kt:124-132 | without a storage fault the title's row (stamped now) replaces any row with its id and the result is success; a fault is returned unclassified and the table is unchanged |
| TitleRepository.TitleRepositoryImpl.DeleteTitle | app/src/main/java/com/example/viddamovie/data/repository/TitleRepositoryImpl.kt:134-142 | without a storage fault the row with the title's id is removed and the result is success; a fault is returned unclassified and the table is unchanged |
| TitleRepository.TitleRepositoryImpl.GetSavedTitles | app/src/main/java/com/example/viddamovie/data/repository/TitleRepositoryImpl.kt:144-147 | one title per saved row, each the row read back, every stored id present and none twice, ordered by title |
| TitleDao.TextLeTotal | app/src/main/java/com/example/viddamovie/data/local/TitleDao.kt:21-22 | any two titles are comparable in the BINARY collation |
| TitleDao.TextLeTransitive | app/src/main/java/com/example/viddamovie/data/local/TitleDao.kt:21-22 | the BINARY collation is transitive |
| TitleDao.TitleLeTotal | app/src/main/java/com/example/viddamovie/data/local/TitleDao.kt:21-22 | the ORDER BY title order (NULL first) is total |
| TitleDao.TitleLeTransitive | app/src/main/java/com/example/viddamovie/data/local/TitleDao.kt:21-22 | the ORDER BY title order (NULL first) is transitive |
| TitleDao.InsertSorted | app/src/main/java/com/example/viddamovie/data/local/TitleDao.kt:21-22 | inserting a row into a listing sorted by title keeps it sorted and adds exactly that row |
| TitleDao.InsertAllLastWins | app/src/main/java/com/example/viddamovie/data/local/TitleDao.kt:30-31 | after a REPLACE insert of a list, each id holds the last row in the list with that id |
| TitleDao.InsertAllUntouched | app/src/main/java/com/example/viddamovie/data/local/TitleDao.kt:30-31 | ids not in the inserted list keep their rows (or stay absent) |
| TitleDao.InsertAllKeyedById | app/src/main/java/com/example/viddamovie/data/local/TitleDao.kt:30-31 | inserting a list keeps every row stored under its own id |
| TitleDao.TitleTable.constructor | app/src/main/java/com/example/viddamovie/data/local/TitleDao.kt:18-19 | the table starts empty |
| TitleDao.TitleTable.GetAllTitles | app/src/main/java/com/example/viddamovie/data/local/TitleDao.kt:21-22 | every stored id appears, no id twice, each row as stored, sorted by title, with as many rows as the count query reports |
| TitleDao.TitleTable.GetTitleById | app/src/main/java/com/example/viddamovie/data/local/TitleDao.kt:24-25 | the row with that id, or null when there is none |
| TitleDao.TitleTable.InsertTitle | app/src/main/java/com/example/viddamovie/data/local/TitleDao.kt:27-28 | the row is stored under its id, replacing any previous one; other rows unchanged |
| TitleDao.TitleTable.InsertTitles | app/src/main/java/com/example/viddamovie/data/local/TitleDao.kt:30-31 | the table becomes the old table with each row inserted in order, the last duplicate winning |
| TitleDao.TitleTable.DeleteTitle | app/src/main/java/com/example/viddamovie/data/local/TitleDao.kt:33-34 | the row with the entity's id is removed (matched by primary key only); other rows unchanged |
| TitleDao.TitleTable.DeleteAllTitles | app/src/main/java/com/example/viddamovie/data/local/TitleDao.kt:36-37 | the table is empty |
| TitleDao.TitleTable.IsTitleSaved | app/src/main/java/com/example/viddamovie/data/local/TitleDao.kt:39-40 | true iff a lookup by that id finds a row |
| TitleDao.TitleTable.GetSavedTitlesCount | app/src/main/java/com/example/viddamovie/data/local/TitleDao.kt:42-43 | the number of stored ids |
| Resources.ErrorOf | app/src/main/java/com/example/viddamovie/util/Result.kt:9-12 | an error resource's message defaults to the exception's own message |
| Resources.Handle | app/src/main/java/com/example/viddamovie/util/Result.kt:15-25 | exactly the callback matching the state is invoked, with the data or the exception |
| Resources.DataOrNull | app/src/main/java/com/example/viddamovie/util/Result.kt:27-29 | the data iff the resource is a success, else null |
| Resources.IsSuccess | app/src/main/java/com/example/viddamovie/util/Result.kt:31 | true iff the resource is neither loading nor an error |
| Resources.IsLoading | app/src/main/java/com/example/viddamovie/util/Result.kt:33 | true iff the resource is neither a success nor an error |
| Resources.IsError | app/src/main/java/com/example/viddamovie/util/Result.kt:35 | true iff the resource is neither loading nor a success |
| Resources.ExactlyOneState | app/src/main/java/com/example/viddamovie/util/Result.kt:31-35 | exactly one of isSuccess, isLoading, isError holds |
| Screens.RoutesDistinct | app/src/main/java/com/example/viddamovie/ui/navigation/Screens.kt:5-11 | the four tab routes and the detail pattern are pairwise distinct |
| Screens.CreateRoute | app/src/main/java/com/example/viddamovie/ui/navigation/Screens.kt:12 | "detail/" followed by the decimal id, "/" and the enum name of the media kind |
| Screens.ParseCreateRoute | app/src/main/java/com/example/viddamovie/ui/navigation/Screens.kt:11-12 | every built route reads back, against the detail pattern, as the id and media kind it came from |
| Screens.CreateRouteInjective | app/src/main/java/com/example/viddamovie/ui/navigation/Screens.kt:12 | different (id, media kind) pairs get different routes |
| Screens.CreateRouteIsNotTabRoute | app/src/main/java/com/example/viddamovie/ui/navigation/Screens.kt:5-12 | no built route equals a tab route or the unfilled pattern |
| HomeViewModel.LoadingState | app/src/main/java/com/example/viddamovie/ui/screens/home/HomeViewModel.kt:37 | loading set, error cleared, every list and the hero untouched |
| HomeViewModel.PickHero | app/src/main/java/com/example/viddamovie/ui/screens/home/HomeViewModel.kt:53 | null iff the trending movies are empty, otherwise one of them |
| HomeViewModel.HomeViewModel.constructor | app/src/main/java/com/example/viddamovie/ui/screens/home/HomeViewModel.kt:21-27 | starts from the default state and loads: the published states are default, loading, settled |
| HomeViewModel.HomeViewModel.LoadTitles | app/src/main/java/com/example/viddamovie/ui/screens/home/HomeViewModel.kt:29-78 | nothing happens once trending movies are loaded; otherwise loading is published, then each list is its fetch's titles or empty on failure, the hero is drawn from trending movies, loading off and no error |
| HomeViewModel.HomeViewModel.Retry | app/src/main/java/com/example/viddamovie/ui/screens/home/HomeViewModel.kt:80-82 | exactly the behaviour of loadTitles, guard included |
| UpcomingViewModel.Settled | app/src/main/java/com/example/viddamovie/ui/screens/upcoming/UpcomingViewModel.kt:31-38 | success with the titles iff the fetch succeeded; a failed fetch ends in Error carrying the repository's exception unchanged |
| UpcomingViewModel.UpcomingViewModel.constructor | app/src/main/java/com/example/viddamovie/ui/screens/upcoming/UpcomingViewModel.kt:20-25 | publishes Initial, Loading, then the settled state |
| UpcomingViewModel.UpcomingViewModel.LoadUpcomingMovies | app/src/main/java/com/example/viddamovie/ui/screens/upcoming/UpcomingViewModel.kt:27-40 | publishes Loading, then the settled state |
| UpcomingViewModel.UpcomingViewModel.Retry | app/src/main/java/com/example/viddamovie/ui/screens/upcoming/UpcomingViewModel.kt:42-44 | exactly a new load, whatever the current state |
| SearchViewModel.RequestFor | app/src/main/java/com/example/viddamovie/ui/screens/search/SearchViewModel.kt:74-86 | trending iff the query is blank, movies iff the toggle says movies, a search carries the query unchanged |
| SearchViewModel.Started | app/src/main/java/com/example/viddamovie/ui/screens/search/SearchViewModel.kt:70-71 | loading set, error cleared, nothing else changed |
| SearchViewModel.Finished | app/src/main/java/com/example/viddamovie/ui/screens/search/SearchViewModel.kt:88-97 | loading off; success replaces the results; failure empties them and shows the exception's message; query and toggle unchanged |
| SearchViewModel.SearchViewModel.constructor | app/src/main/java/com/example/viddamovie/ui/screens/search/SearchViewModel.kt:26-46 | empty query and results, not loading, no error, searching movies, nothing emitted yet |
| SearchViewModel.SearchViewModel.OnSearchQueryChange | app/src/main/java/com/example/viddamovie/ui/screens/search/SearchViewModel.kt:57-59 | only the query changes |
| SearchViewModel.SearchViewModel.ExecuteSearch | app/src/main/java/com/example/viddamovie/ui/screens/search/SearchViewModel.kt:67-99 | publishes the started state, issues the request chosen for the current query and toggle, and publishes the finished state for its outcome |
| SearchViewModel.SearchViewModel.OnQuerySettled | app/src/main/java/com/example/viddamovie/ui/screens/search/SearchViewModel.kt:49-55 | a debounced query equal to the previous emission changes nothing; any other one is recorded and searched |
| SearchViewModel.SearchViewModel.ToggleMediaType | app/src/main/java/com/example/viddamovie/ui/screens/search/SearchViewModel.kt:61-65 | the toggle flips, then the current query is searched for the new media kind |
| TitleDetailViewModel.FailureText | app/src/main/java/com/example/viddamovie/ui/screens/detail/TitleDetailVielModel.kt:61-65 | the exception's message when it has one, otherwise the operation's fallback text |
| TitleDetailViewModel.VideoSettled | app/src/main/java/com/example/viddamovie/ui/screens/detail/TitleDetailVielModel.kt:74-83 | success with the video id iff the lookup succeeded; a failed lookup ends in Error with the exception's message or "Failed to load trailer" |
| TitleDetailViewModel.SaveSettled | app/src/main/java/com/example/viddamovie/ui/screens/detail/TitleDetailVielModel.kt:91-100 | success iff the save succeeded, otherwise the message or "Failed to save"; never idle or saving |
| TitleDetailViewModel.TitleDetailViewModel.constructor | app/src/main/java/com/example/viddamovie/ui/screens/detail/TitleDetailVielModel.kt:28-41 | title and video loading, save idle |
| TitleDetailViewModel.TitleDetailViewModel.LoadTitleDetails | app/src/main/java/com/example/viddamovie/ui/screens/detail/TitleDetailVielModel.kt:51-68 | publishes Loading, then the title or its error message; the trailer is loaded for the title's display name only on success, and the video state is untouched on failure |
| TitleDetailViewModel.TitleDetailViewModel.LoadVideoId | app/src/main/java/com/example/viddamovie/ui/screens/detail/TitleDetailVielModel.kt:70-85 | publishes video Loading, then the lookup's settled state |
| TitleDetailViewModel.TitleDetailViewModel.SaveTitle | app/src/main/java/com/example/viddamovie/ui/screens/detail/TitleDetailVielModel.kt:87-102 | publishes Saving, then the save's settled state |
| TitleDetailViewModel.TitleDetailViewModel.ResetSaveState | app/src/main/java/com/example/viddamovie/ui/screens/detail/TitleDetailVielModel.kt:104-106 | the save state returns to Idle; title and video states untouched |

## Left out

- Coroutines, cancellation of a previous search job and concurrency between launched blocks: each launched block runs to completion inside its method, so interleavings are not modelled.
- SearchViewModel.SearchViewModel.OnQuerySettled: the 500 ms debounce is not modelled; the caller decides when the query has settled. Only `distinctUntilChanged` is modelled.
- `Flow` re-emission: `getAllTitles`, `getSavedTitlesCount` and `getSavedTitles` are modelled as one snapshot of the table, not as streams that re-emit on change.
- The bookmark screen's state holder (`DownloadViewModel`) and the navigation graph are context, not core, and are not modelled.
- API keys and `ApiConfig` loading: keys are query parameters the model does not carry; the remote APIs are functions of the remaining arguments.
- Retrofit, JSON decoding and HTTP transport: a remote call is a given outcome, either a returned record or a thrown exception.
- The `cause` of each `NetworkError` and of other exceptions is not modelled; only messages are.
- `MissingConfig.toString()` is not modelled: its message is never null, so it always returns that message.
- HomeViewModel.HomeViewModel.LoadTitles: the `catch` branch is not modelled, because none of the calls in the `try` block throw. The repository returns failures as values and `getOrElse` replaces them.
- `MediaType.value`, `MediaType.fromString` and `Title.displayTitle` are not part of this model; they are parameters, and `TitleMappers.EntityRoundTrip` states its full round trip only under the assumption that `fromString` reads back what `value` writes.
- Home's `randomOrNull()` is a nondeterministic choice of an element; the random source is not modelled.
- The current time (`System.currentTimeMillis()`) is a parameter `now`; a storage failure is a parameter `storageFault`.
- `Double` vote averages are `real` and are never computed with; `Int` ids are unbounded integers, which is harmless because the model does no arithmetic on them.
- The unused constants (test poster URLs, the video search parameter names and the endpoint-type names) are not modelled.
- The `SavedStateHandle` and the default `MediaType.MOVIE` argument of `loadTitleDetails` are not modelled; the caller passes both arguments.
