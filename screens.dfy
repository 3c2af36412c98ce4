/** Navigation routes: the four tabs and the detail route with its two path arguments. */
module Screens {
  import opened Wrappers
  import opened Text
  import opened DomainModel

  const HomeRoute: string := "home"
  const UpcomingRoute: string := "upcoming"
  const SearchRoute: string := "search"
  const DownloadRoute: string := "download"
  const DetailRoute: string := "detail/{titleId}/{mediaType}"

  const DetailPrefix: string := "detail/"

  /** The four tab routes and the detail pattern are pairwise distinct. */
  lemma RoutesDistinct()
    ensures HomeRoute != UpcomingRoute && HomeRoute != SearchRoute && HomeRoute != DownloadRoute
    ensures UpcomingRoute != SearchRoute && UpcomingRoute != DownloadRoute && SearchRoute != DownloadRoute
    ensures DetailRoute !in {HomeRoute, UpcomingRoute, SearchRoute, DownloadRoute}
  {
    assert HomeRoute[0] != UpcomingRoute[0] && HomeRoute[0] != SearchRoute[0] && HomeRoute[0] != DownloadRoute[0];
    assert UpcomingRoute[0] != SearchRoute[0] && UpcomingRoute[0] != DownloadRoute[0] && SearchRoute[0] != DownloadRoute[0];
    assert |DetailRoute| > 8 >= |HomeRoute| && |DetailRoute| > |UpcomingRoute| && |DetailRoute| > |SearchRoute|;
    assert |DetailRoute| > |DownloadRoute|;
  }

  /** `Screen.Detail.createRoute`: "detail/<decimal id>/<enum name>". */
  function CreateRoute(titleId: int, mediaType: MediaType): (route: string)
    ensures StartsWith(route, DetailPrefix)
    ensures route[|DetailPrefix|..] == IntToDecimal(titleId) + "/" + Name(mediaType)
  {
    var route := DetailPrefix + IntToDecimal(titleId) + "/" + Name(mediaType);
    assert route[..|DetailPrefix|] == DetailPrefix;
    route
  }

  /** The media kind whose enum name is `s`. */
  function MediaTypeNamed(s: string): (m: Option<MediaType>)
    ensures m.Some? ==> Name(m.value) == s
  {
    if s == "MOVIE" then Some(Movie) else if s == "TV" then Some(Tv) else None
  }

  /** Reads a concrete detail route back into the two arguments of the pattern. */
  function ParseDetailRoute(route: string): Option<(int, MediaType)>
  {
    if !StartsWith(route, DetailPrefix) then None
    else
      var rest := route[|DetailPrefix|..];
      var slash := IndexOf(rest, '/');
      if slash == |rest| then None
      else
        match ParseInt(rest[..slash])
        case None => None
        case Some(id) =>
          match MediaTypeNamed(rest[slash + 1..])
          case None => None
          case Some(m) => Some((id, m))
  }

  /** Every route `createRoute` builds reads back as the id and media kind it was built from. */
  lemma ParseCreateRoute(titleId: int, mediaType: MediaType)
    ensures ParseDetailRoute(CreateRoute(titleId, mediaType)) == Some((titleId, mediaType))
  {
    var route := CreateRoute(titleId, mediaType);
    var digits := IntToDecimal(titleId);
    var rest := route[|DetailPrefix|..];
    assert rest == digits + "/" + Name(mediaType);
    assert rest[|digits|] == '/';
    assert forall i :: 0 <= i < |digits| ==> rest[i] == digits[i] && digits[i] != '/';
    var slash := IndexOf(rest, '/');
    assert slash == |digits|;
    assert rest[..slash] == digits;
    assert rest[slash + 1..] == Name(mediaType);
    ParseIntOfDecimal(titleId);
  }

  /** Different (id, media kind) pairs get different routes. */
  lemma CreateRouteInjective(id1: int, m1: MediaType, id2: int, m2: MediaType)
    requires CreateRoute(id1, m1) == CreateRoute(id2, m2)
    ensures id1 == id2 && m1 == m2
  {
    ParseCreateRoute(id1, m1);
    ParseCreateRoute(id2, m2);
  }

  /** No route built by `createRoute` is a tab route or the pattern itself. */
  lemma CreateRouteIsNotTabRoute(titleId: int, mediaType: MediaType)
    ensures CreateRoute(titleId, mediaType) !in {HomeRoute, UpcomingRoute, SearchRoute, DownloadRoute, DetailRoute}
  {
    var route := CreateRoute(titleId, mediaType);
    assert route[..|DetailPrefix|] == DetailPrefix;
    assert route[|DetailPrefix|] == IntToDecimal(titleId)[0];
    assert DetailRoute[|DetailPrefix|] == '{';
  }
}
