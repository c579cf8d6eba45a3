/**
 * The request-time render module that the build emits as `ssr-function.js`:
 * manifest membership, the cached static-props artifact, and the page and
 * props renders that merge cached static props with fresh server props.
 */
module SsrRuntime {
  import opened Wrappers
  import opened Values
  import opened Routes
  import opened Pages
  import opened SiteGenerator
  import opened Paths

  /** `isSsrRoute`: membership of the normalised path in the manifest. */
  function IsSsrRoute(ssrRoutes: seq<string>, path: string): (b: bool)
    ensures b <==> exists i | 0 <= i < |ssrRoutes| :: ssrRoutes[i] == Normalize(path)
  {
    Normalize(path) in ssrRoutes
  }

  /** Over a manifest built from a table, a path renders at request time exactly when its route has `getServerSideProps`. */
  lemma IsSsrRouteIffServerSideProps(routes: seq<Route>, path: string)
    ensures IsSsrRoute(SsrRoutes(routes), path)
        <==> exists r :: r in routes && r.hasServerSideProps && r.path == Normalize(path)
  {
  }

  /**
   * `staticPropsFilePath`: `resolve(publicRoot, '_props.json')` for `/`,
   * `resolve(publicRoot, path.slice(1), '_props.json')` otherwise; it always
   * names a `_props.json` file.
   */
  function StaticPropsFilePath(publicRoot: string, path: string): (f: string)
    ensures EndsInFile(f, "_props.json")
  {
    if path == "/" then
      ResolveName(publicRoot, "_props.json");
      Resolve([publicRoot, "_props.json"])
    else
      assert [publicRoot, Tail(path)] + ["_props.json"] == [publicRoot, Tail(path), "_props.json"];
      ResolveLeaf([publicRoot, Tail(path)], "_props.json");
      Resolve([publicRoot, Tail(path), "_props.json"])
  }

  /**
   * `loadCachedStaticProps`: the parsed artifact, or `{}` when the file is
   * missing or does not parse.
   */
  function LoadCachedStaticProps(files: map<string, string>, json: Serializer, publicRoot: string, path: string): (props: Props)
    ensures var f := StaticPropsFilePath(publicRoot, path);
      && (f !in files ==> props == map[])
      && (f in files && json.parse(files[f]).None? ==> props == map[])
      && (f in files && json.parse(files[f]).Some? ==> props == json.parse(files[f]).value)
  {
    var f := StaticPropsFilePath(publicRoot, path);
    if f !in files then map[]
    else match json.parse(files[f])
      case None => map[]
      case Some(props) => props
  }

  /**
   * `renderRouteProps`: for the normalised path, the cached static props
   * overridden by the server props; an exception of the server loader
   * propagates.
   */
  function RenderRouteProps(files: map<string, string>, json: Serializer, publicRoot: string,
                            loadServerSideProps: string -> Result<Props, string>, path: string): (r: Result<Props, Fault>)
    ensures var server := loadServerSideProps(Normalize(path));
      && (r.Success? <==> server.Success?)
      && (server.Failure? ==> r == Failure(Thrown(server.error)))
    ensures r.Success? ==>
      var server := loadServerSideProps(Normalize(path)).value;
      var cached := LoadCachedStaticProps(files, json, publicRoot, Normalize(path));
      && r.value.Keys == cached.Keys + server.Keys
      && (forall k :: k in server ==> r.value[k] == server[k])
      && (forall k :: k in cached && k !in server ==> r.value[k] == cached[k])
  {
    var normalized := Normalize(path);
    var cached := LoadCachedStaticProps(files, json, publicRoot, normalized);
    match loadServerSideProps(normalized)
    case Failure(e) => Failure(Thrown(e))
    case Success(server) => Success(Merge(cached, server))
  }

  /**
   * `renderSsrPage`: the template copied at build time (a missing one makes
   * the call reject first), then the merged props of `renderRouteProps`, the
   * markup `renderWithProps` makes of them, and the assembled page, which
   * embeds exactly those props and the manifest script the build made.
   */
  function RenderSsrPage(files: map<string, string>, json: Serializer, publicRoot: string,
                         templatePath: string, routesScript: string,
                         loadServerSideProps: string -> Result<Props, string>,
                         renderWithProps: (string, Props) -> Result<string, string>,
                         path: string): (r: Result<string, Fault>)
    ensures templatePath !in files ==> r == Failure(MissingFile(templatePath))
    ensures templatePath in files ==>
      match RenderRouteProps(files, json, publicRoot, loadServerSideProps, path)
      case Failure(e) => r == Failure(e)
      case Success(props) =>
        match renderWithProps(Normalize(path), props)
        case Failure(e) => r == Failure(Thrown(e))
        case Success(html) => r == Success(AssemblePage(files[templatePath], html, PropsScript(json, props) + routesScript))
  {
    if templatePath !in files then Failure(MissingFile(templatePath))
    else
      var normalized := Normalize(path);
      match RenderRouteProps(files, json, publicRoot, loadServerSideProps, path)
      case Failure(e) => Failure(e)
      case Success(props) =>
        match renderWithProps(normalized, props)
        case Failure(e) => Failure(Thrown(e))
        case Success(html) => Success(AssemblePage(files[templatePath], html, PropsScript(json, props) + routesScript))
  }
}
