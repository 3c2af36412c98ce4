/** Conversions between the wire record, the domain title and the stored row. */
module TitleMappers {
  import opened Wrappers
  import opened DomainModel
  import opened RemoteDto
  import opened TitleEntities
  import opened Constants

  /**
   * `TitleDto.toDomain()`: a record without an id is unusable and yields null; otherwise the
   * fields are copied, the two image paths are made absolute, and the media kind is parsed from
   * the record's own string. `firstAirDate` and `voteCount` are not read.
   */
  function DtoToDomain(dto: TitleDto, fromString: Option<string> -> MediaType): (r: Option<Title>)
    ensures r.None? <==> dto.id.None?
    ensures r.Some? ==>
      && r.value.id == dto.id.value
      && r.value.title == dto.title
      && r.value.name == dto.name
      && r.value.overview == dto.overview
      && r.value.releaseDate == dto.releaseDate
      && r.value.voteAverage == dto.voteAverage
      && r.value.mediaType == fromString(dto.mediaType)
    ensures r.Some? ==> r.value.posterPath == GetFullPosterUrl(dto.posterPath)
    ensures r.Some? ==> r.value.backdropPath == GetFullPosterUrl(dto.backdropPath)
  {
    match dto.id
    case None => None
    case Some(validId) =>
      Some(Title(
        id := validId,
        title := dto.title,
        name := dto.name,
        overview := dto.overview,
        posterPath := GetFullPosterUrl(dto.posterPath),
        backdropPath := GetFullPosterUrl(dto.backdropPath),
        releaseDate := dto.releaseDate,
        voteAverage := dto.voteAverage,
        mediaType := fromString(dto.mediaType)))
  }

  /** The mapping does not depend on the first-air date or the vote count. */
  lemma DtoToDomainIgnoresUnusedFields(dto: TitleDto, fromString: Option<string> -> MediaType,
                                       firstAirDate: Option<string>, voteCount: Option<int>)
    ensures DtoToDomain(dto.(firstAirDate := firstAirDate, voteCount := voteCount), fromString)
         == DtoToDomain(dto, fromString)
  {
  }

  /** The number of records that carry an id. */
  function CountWithId(dtos: seq<TitleDto>): (n: nat)
    ensures n <= |dtos|
  {
    if dtos == [] then 0 else (if dtos[0].id.Some? then 1 else 0) + CountWithId(dtos[1..])
  }

  /** `List<TitleDto>.toDomainFromDto()`: `mapNotNull { it.toDomain() }`. */
  function DtoListToDomain(dtos: seq<TitleDto>, fromString: Option<string> -> MediaType): (r: seq<Title>)
    ensures |r| == CountWithId(dtos)
  {
    if dtos == [] then []
    else
      match DtoToDomain(dtos[0], fromString)
      case None => DtoListToDomain(dtos[1..], fromString)
      case Some(t) => [t] + DtoListToDomain(dtos[1..], fromString)
  }

  /** Order is preserved: mapping a concatenation concatenates the mapped parts. */
  lemma {:induction false} DtoListToDomainAppend(a: seq<TitleDto>, b: seq<TitleDto>,
                                                 fromString: Option<string> -> MediaType)
    ensures DtoListToDomain(a + b, fromString) == DtoListToDomain(a, fromString) + DtoListToDomain(b, fromString)
    decreases |a|
  {
    if a != [] {
      assert (a + b)[1..] == a[1..] + b;
      DtoListToDomainAppend(a[1..], b, fromString);
    } else {
      assert a + b == b;
    }
  }

  /** A title is in the output exactly when some input record maps to it. */
  lemma {:induction false} DtoListToDomainMembers(dtos: seq<TitleDto>, fromString: Option<string> -> MediaType, t: Title)
    ensures t in DtoListToDomain(dtos, fromString) <==> exists i :: 0 <= i < |dtos| && DtoToDomain(dtos[i], fromString) == Some(t)
    decreases |dtos|
  {
    if dtos != [] {
      DtoListToDomainMembers(dtos[1..], fromString, t);
      if exists i :: 0 <= i < |dtos| && DtoToDomain(dtos[i], fromString) == Some(t) {
        var i :| 0 <= i < |dtos| && DtoToDomain(dtos[i], fromString) == Some(t);
        if i > 0 {
          assert dtos[1..][i - 1] == dtos[i];
        }
      }
      if exists i :: 0 <= i < |dtos[1..]| && DtoToDomain(dtos[1..][i], fromString) == Some(t) {
        var i :| 0 <= i < |dtos[1..]| && DtoToDomain(dtos[1..][i], fromString) == Some(t);
        assert dtos[i + 1] == dtos[1..][i];
      }
    }
  }

  /** When no record lacks an id, nothing is dropped and the i-th output comes from the i-th input. */
  lemma {:induction false} DtoListToDomainKeepsAll(dtos: seq<TitleDto>, fromString: Option<string> -> MediaType)
    requires forall i :: 0 <= i < |dtos| ==> dtos[i].id.Some?
    ensures |DtoListToDomain(dtos, fromString)| == |dtos|
    ensures forall i :: 0 <= i < |dtos| ==> Some(DtoListToDomain(dtos, fromString)[i]) == DtoToDomain(dtos[i], fromString)
    decreases |dtos|
  {
    if dtos != [] {
      DtoListToDomainKeepsAll(dtos[1..], fromString);
      var r := DtoListToDomain(dtos, fromString);
      assert r == [DtoToDomain(dtos[0], fromString).value] + DtoListToDomain(dtos[1..], fromString);
      forall i | 0 < i < |dtos|
        ensures Some(r[i]) == DtoToDomain(dtos[i], fromString)
      {
        assert dtos[1..][i - 1] == dtos[i];
      }
    }
  }

  /**
   * `Title.toEntity()`: copies every field, stores the media kind as its string value and stamps
   * `savedAt` with the current time, which the caller supplies.
   */
  function TitleToEntity(t: Title, value: MediaType -> string, now: int): (e: TitleEntity)
    ensures e.id == t.id && e.savedAt == now && e.mediaType == value(t.mediaType)
    ensures e.posterPath == t.posterPath && e.backdropPath == t.backdropPath
    ensures e.title == t.title && e.name == t.name && e.overview == t.overview
    ensures e.releaseDate == t.releaseDate && e.voteAverage == t.voteAverage
  {
    TitleEntity(
      id := t.id,
      title := t.title,
      name := t.name,
      overview := t.overview,
      posterPath := t.posterPath,
      backdropPath := t.backdropPath,
      releaseDate := t.releaseDate,
      voteAverage := t.voteAverage,
      mediaType := value(t.mediaType),
      savedAt := now)
  }

  /** `TitleEntity.toDomain()`: copies every field verbatim (no URL normalisation) and parses the media kind. */
  function EntityToDomain(e: TitleEntity, fromString: Option<string> -> MediaType): (t: Title)
    ensures t.id == e.id && t.posterPath == e.posterPath && t.backdropPath == e.backdropPath
    ensures t.title == e.title && t.name == e.name && t.overview == e.overview
    ensures t.releaseDate == e.releaseDate && t.voteAverage == e.voteAverage
    ensures t.mediaType == fromString(Some(e.mediaType))
  {
    Title(
      id := e.id,
      title := e.title,
      name := e.name,
      overview := e.overview,
      posterPath := e.posterPath,
      backdropPath := e.backdropPath,
      releaseDate := e.releaseDate,
      voteAverage := e.voteAverage,
      mediaType := fromString(Some(e.mediaType)))
  }

  /**
   * Storing a title and reading it back keeps every field except possibly the media kind; the
   * media kind survives too when parsing a stored value gives back the kind it was stored from.
   */
  lemma EntityRoundTrip(t: Title, codec: MediaTypeCodec, now: int)
    ensures EntityToDomain(TitleToEntity(t, codec.value, now), codec.fromString).(mediaType := t.mediaType) == t
    ensures ReadsBackStoredValue(codec) ==> EntityToDomain(TitleToEntity(t, codec.value, now), codec.fromString) == t
  {
  }

  /** `List<TitleEntity>.toDomainFromEntity()`: same length, same order. */
  function EntityListToDomain(entities: seq<TitleEntity>, fromString: Option<string> -> MediaType): (r: seq<Title>)
    ensures |r| == |entities|
    ensures forall i :: 0 <= i < |entities| ==> r[i] == EntityToDomain(entities[i], fromString)
  {
    if entities == [] then []
    else [EntityToDomain(entities[0], fromString)] + EntityListToDomain(entities[1..], fromString)
  }
}
