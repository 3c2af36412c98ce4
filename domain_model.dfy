/** The domain record every screen works with, and the movie/TV discriminator. */
module DomainModel {
  import opened Wrappers

  /** The media kind: the enum constants `MOVIE` and `TV`. */
  datatype MediaType = Movie | Tv

  /** Kotlin's `Enum.name`: the constant's declared name. */
  function Name(m: MediaType): string
  {
    match m
    case Movie => "MOVIE"
    case Tv => "TV"
  }

  /**
   * The domain title, with the nine fields the mappers construct. `voteAverage` is a Kotlin
   * `Double`; the model never computes with it, so a `real` stands for it.
   */
  datatype Title = Title(
    id: int,
    title: Option<string>,
    name: Option<string>,
    overview: Option<string>,
    posterPath: Option<string>,
    backdropPath: Option<string>,
    releaseDate: Option<string>,
    voteAverage: Option<real>,
    mediaType: MediaType)

  /**
   * `MediaType.value` (the string stored and sent to the API) and `MediaType.fromString` (the
   * parser applied to a nullable string). Their definitions are not part of this model, so every
   * operation that needs them takes this pair as a parameter.
   */
  datatype MediaTypeCodec = MediaTypeCodec(
    value: MediaType -> string,
    fromString: Option<string> -> MediaType)

  /** The assumption under which a stored media kind reads back as itself. */
  ghost predicate ReadsBackStoredValue(codec: MediaTypeCodec)
  {
    forall m: MediaType :: codec.fromString(Some(codec.value(m))) == m
  }
}
