/** Poster-URL normalisation and the trailer search query. */
module Constants {
  import opened Wrappers
  import opened Text
  import opened DomainModel

  const PosterUrlBase: string := "https://image.tmdb.org/t/p/w500"

  const TrailerKeyword: string := "trailer"
  const Space: string := " "

  /** The media path segments sent to the metadata API. */
  const MediaMovie: string := "movie"
  const MediaTv: string := "tv"

  /**
   * Turns a relative image path into a full URL by prefixing the image base; a path that already
   * starts with "http" is kept as it is, and a missing path stays missing.
   */
  function GetFullPosterUrl(posterPath: Option<string>): (r: Option<string>)
    ensures r.None? <==> posterPath.None?
    ensures r.Some? ==> StartsWith(r.value, "http") && EndsWith(r.value, posterPath.value)
    ensures posterPath.Some? && StartsWith(posterPath.value, "http") ==> r == posterPath
    ensures posterPath.Some? && !StartsWith(posterPath.value, "http") ==> r == Some(PosterUrlBase + posterPath.value)
  {
    match posterPath
    case None => None
    case Some(p) =>
      if StartsWith(p, "http") then Some(p)
      else
        var url := PosterUrlBase + p;
        assert url[..4] == PosterUrlBase[..4];
        assert url[|url| - |p|..] == p;
        Some(url)
  }

  /** Normalising twice is normalising once, because the base itself starts with "http". */
  lemma GetFullPosterUrlIdempotent(posterPath: Option<string>)
    ensures GetFullPosterUrl(GetFullPosterUrl(posterPath)) == GetFullPosterUrl(posterPath)
  {
  }

  /** The video search text: the title, a space, and "trailer". */
  function BuildTrailerSearchQuery(title: string): (q: string)
    ensures StartsWith(q, title) && EndsWith(q, " trailer")
    ensures |q| == |title| + 8 && q[..|title|] == title
  {
    var q := title + Space + TrailerKeyword;
    assert q[|q| - 8..] == " trailer";
    q
  }

  /** Different titles never produce the same search text. */
  lemma BuildTrailerSearchQueryInjective(a: string, b: string)
    requires BuildTrailerSearchQuery(a) == BuildTrailerSearchQuery(b)
    ensures a == b
  {
    var q := BuildTrailerSearchQuery(a);
    assert a == q[..|a|] && b == q[..|b|];
  }

  /** `List<Title>.withFullPosterUrls()`: normalises every poster path and nothing else. */
  function WithFullPosterUrls(titles: seq<Title>): (r: seq<Title>)
    ensures |r| == |titles|
    ensures forall i :: 0 <= i < |titles| ==> r[i] == titles[i].(posterPath := GetFullPosterUrl(titles[i].posterPath))
  {
    if titles == [] then []
    else [titles[0].(posterPath := GetFullPosterUrl(titles[0].posterPath))] + WithFullPosterUrls(titles[1..])
  }

  /** Applying `withFullPosterUrls` to its own output changes nothing. */
  lemma WithFullPosterUrlsIdempotent(titles: seq<Title>)
    ensures WithFullPosterUrls(WithFullPosterUrls(titles)) == WithFullPosterUrls(titles)
  {
    var once := WithFullPosterUrls(titles);
    var twice := WithFullPosterUrls(once);
    forall i | 0 <= i < |titles|
      ensures twice[i] == once[i]
    {
      GetFullPosterUrlIdempotent(titles[i].posterPath);
    }
  }
}
