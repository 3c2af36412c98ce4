/** The row shape of the `saved_titles` table; `id` is the primary key. */
module TitleEntities {
  import opened Wrappers

  /** `mediaType` defaults to "movie" and `savedAt` is epoch milliseconds (a Kotlin `Long`). */
  datatype TitleEntity = TitleEntity(
    id: int,
    title: Option<string>,
    name: Option<string>,
    overview: Option<string>,
    posterPath: Option<string>,
    backdropPath: Option<string>,
    releaseDate: Option<string>,
    voteAverage: Option<real>,
    mediaType: string,
    savedAt: int)
}
