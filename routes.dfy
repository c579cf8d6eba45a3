/**
 * The route table and route identity shared by the client router, the build
 * and the request-time module: path normalisation, first-match lookup and the
 * list of routes that render at request time.
 */
module Routes {
  import opened Wrappers

  /** The page component a route renders; the model only needs its identity. */
  datatype Component = Component(name: string)

  /**
   * An entry of the route table. `hasServerSideProps` is the truthiness of
   * the route's `getServerSideProps`; the static loader is reached through
   * `loadStaticProps(path)` and so needs no field here.
   */
  datatype Route = Route(path: string, component: Component, hasServerSideProps: bool)

  predicate EndsWithSlash(p: string) {
    |p| > 0 && p[|p| - 1] == '/'
  }

  /**
   * `normalizePath`: the root `/` is kept; any other path loses exactly one
   * trailing `/` (the regular expression `/\/$/`), and nothing else changes.
   * The request-time module emits the same function.
   */
  function Normalize(p: string): (r: string)
    ensures |r| <= |p| && r == p[..|r|]
    ensures |p| - 1 <= |r|
    ensures |r| < |p| <==> p != "/" && EndsWithSlash(p)
  {
    if p == "/" then p
    else if EndsWithSlash(p) then p[..|p| - 1]
    else p
  }

  /**
   * Normalisation is idempotent except on paths longer than `//` that end in
   * two slashes, where a second application strips one more.
   */
  lemma NormalizeIdempotence(p: string)
    ensures Normalize(Normalize(p)) == Normalize(p)
        <==> !(|p| >= 3 && p[|p| - 1] == '/' && p[|p| - 2] == '/')
  {
    if |p| >= 3 && p[|p| - 1] == '/' && p[|p| - 2] == '/' {
      var n := Normalize(p);
      assert n == p[..|p| - 1];
      assert EndsWithSlash(n) && n != "/";
      assert |Normalize(n)| < |n|;
    } else if p != "/" && EndsWithSlash(p) {
      var n := Normalize(p);
      assert n == p[..|p| - 1];
      if |p| == 2 {
        assert n == [p[0]];
        assert n == "/" || !EndsWithSlash(n);
      } else if |p| >= 3 {
        assert n[|n| - 1] == p[|p| - 2];
      }
    }
  }

  /** `/a//` normalises to `/a/`, which normalises again to `/a`. */
  lemma NormalizeNotIdempotentExample()
    ensures Normalize("/a//") == "/a/" && Normalize(Normalize("/a//")) == "/a"
  {
    assert "/a//"[..3] == "/a/";
    assert "/a/"[..2] == "/a";
  }

  /**
   * `matchRoute`: the first route, in table order, whose path equals the
   * normalised input; none when no route has that path.
   */
  function MatchRoute(routes: seq<Route>, path: string): (r: Option<Route>)
    ensures r.None? <==> forall i | 0 <= i < |routes| :: routes[i].path != Normalize(path)
    ensures r.Some? ==> exists i | 0 <= i < |routes| ::
      routes[i] == r.value && r.value.path == Normalize(path)
      && forall j | 0 <= j < i :: routes[j].path != Normalize(path)
  {
    if |routes| == 0 then None
    else if routes[0].path == Normalize(path) then Some(routes[0])
    else
      var r := MatchRoute(routes[1..], path);
      assert forall i | 0 <= i < |routes| - 1 :: routes[1..][i] == routes[i + 1];
      r
  }

  /** A path and the same path with one trailing `/` added select the same route. */
  lemma MatchIgnoresTrailingSlash(routes: seq<Route>, p: string)
    requires p != "" && !EndsWithSlash(p)
    ensures MatchRoute(routes, p + "/") == MatchRoute(routes, p)
  {
    assert Normalize(p + "/") == p;
  }

  /**
   * The SSR manifest: the paths of the routes with a truthy
   * `getServerSideProps`, in table order (`filter` then `map`).
   */
  function SsrRoutes(routes: seq<Route>): (r: seq<string>)
    ensures |r| <= |routes|
    ensures forall p :: p in r <==> exists route :: route in routes && route.hasServerSideProps && route.path == p
  {
    if |routes| == 0 then []
    else
      var rest := SsrRoutes(routes[1..]);
      assert forall route :: route in routes <==> route == routes[0] || route in routes[1..];
      if routes[0].hasServerSideProps then [routes[0].path] + rest else rest
  }

  /** The manifest keeps table order: it distributes over concatenation. */
  lemma {:induction false} SsrRoutesAppend(a: seq<Route>, b: seq<Route>)
    ensures SsrRoutes(a + b) == SsrRoutes(a) + SsrRoutes(b)
  {
    if |a| == 0 {
      assert a + b == b;
    } else {
      assert (a + b)[1..] == a[1..] + b;
      SsrRoutesAppend(a[1..], b);
    }
  }
}
