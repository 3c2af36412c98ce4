/** Wire records returned by the metadata API and by the video search API. */
module RemoteDto {
  import opened Wrappers

  /** One title as the metadata API sends it; every field may be missing. */
  datatype TitleDto = TitleDto(
    id: Option<int>,
    title: Option<string>,
    name: Option<string>,
    overview: Option<string>,
    posterPath: Option<string>,
    backdropPath: Option<string>,
    releaseDate: Option<string>,
    firstAirDate: Option<string>,
    voteAverage: Option<real>,
    voteCount: Option<int>,
    mediaType: Option<string>)

  /** A page of results; `results` defaults to the empty list. */
  datatype TmdbResponse = TmdbResponse(
    results: seq<TitleDto>,
    page: Option<int>,
    totalPages: Option<int>,
    totalResults: Option<int>)

  datatype YoutubeId = YoutubeId(videoId: Option<string>)

  datatype YoutubeItem = YoutubeItem(id: Option<YoutubeId>)

  datatype YoutubeSearchResponse = YoutubeSearchResponse(items: Option<seq<YoutubeItem>>)
}
