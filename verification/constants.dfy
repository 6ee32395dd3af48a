/** Endpoint and route paths of the application (API_CONFIG and ROUTES). */
module Constants {

  const BaseUrl: string := "http://localhost:3031"

  /** ENDPOINTS.MAPPINGS */
  const MappingsEndpoint: string := "/mappings"

  /** ENDPOINTS.MAPPING_HISTORY(id) */
  function MappingHistoryEndpoint(id: string): (r: string)
    ensures |r| == |id| + 19
    ensures r[..10] == "/mappings/" && r[10..10 + |id|] == id && r[10 + |id|..] == "/_history"
  {
    "/mappings/" + id + "/_history"
  }

  const HomeRoute: string := "/"

  /** ROUTES.MAPPINGS */
  const MappingsRoute: string := "/mappings"

  /** ROUTES.MAPPING_DETAIL(id) */
  function MappingDetailRoute(id: string): (r: string)
    ensures |r| == |id| + 10
    ensures r[..10] == "/mappings/" && r[10..] == id
  {
    "/mappings/" + id
  }

  /** ROUTES.MAPPING_HISTORY(id) */
  function MappingHistoryRoute(id: string): (r: string)
    ensures |r| == |id| + 18
    ensures r[..10] == "/mappings/" && r[10..10 + |id|] == id && r[10 + |id|..] == "/history"
  {
    "/mappings/" + id + "/history"
  }

  predicate IsProperPrefix(p: string, s: string) {
    |p| < |s| && s[..|p|] == p
  }

  /** The list endpoint and the list route are the same path. */
  lemma MappingsPathsAgree()
    ensures MappingsEndpoint == MappingsRoute
    ensures MappingDetailRoute("") == MappingsRoute + "/"
  {
  }

  /** Each builder tells ids apart: equal paths come from equal ids. */
  lemma PathsDetermineId(a: string, b: string)
    ensures MappingDetailRoute(a) == MappingDetailRoute(b) ==> a == b
    ensures MappingHistoryEndpoint(a) == MappingHistoryEndpoint(b) ==> a == b
    ensures MappingHistoryRoute(a) == MappingHistoryRoute(b) ==> a == b
  {
    if MappingHistoryEndpoint(a) == MappingHistoryEndpoint(b) {
      assert |a| == |b|;
    }
    if MappingHistoryRoute(a) == MappingHistoryRoute(b) {
      assert |a| == |b|;
    }
  }

  /** Both history paths extend the detail route of the same id. */
  lemma DetailPrefixesHistory(id: string)
    ensures IsProperPrefix(MappingDetailRoute(id), MappingHistoryEndpoint(id))
    ensures IsProperPrefix(MappingDetailRoute(id), MappingHistoryRoute(id))
  {
    assert MappingHistoryEndpoint(id) == MappingDetailRoute(id) + "/_history";
    assert MappingHistoryRoute(id) == MappingDetailRoute(id) + "/history";
  }

  /** The history route never coincides with a history endpoint path, whatever the
      two ids are. The router registers the endpoint's shape (`/mappings/:id/_history`),
      so a path built by MappingHistoryRoute never reaches the history page. */
  lemma {:induction false} HistoryRouteIsNotEndpoint(id: string, other: string)
    ensures MappingHistoryRoute(id) != MappingHistoryEndpoint(other)
  {
    var route := MappingHistoryRoute(id);
    var endpoint := MappingHistoryEndpoint(other);
    if |other| + 1 == |id| {
      // same length: they differ just after the shorter id
      var k := 10 + |id|;
      assert route[k] == '/' && endpoint[k] == '_';
    } else {
      assert |route| != |endpoint|;
    }
  }
}
