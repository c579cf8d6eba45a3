/**
 * The route-identity contract between the three places that handle a route:
 * the props URL the client fetches, the artifacts the build writes, the file
 * the request-time module reads, and the pages the build, the request-time
 * module and the development server assemble.
 */
module Agreement {
  import opened Wrappers
  import opened Text
  import opened Values
  import opened Routes
  import opened Pages
  import opened Router
  import opened SiteGenerator
  import opened SsrRuntime
  import opened DevServer
  import opened Paths

  /**
   * Served from the output directory, the client's props URL for a
   * canonical route path names exactly the props artifact the build wrote
   * for it.
   */
  lemma PropsUrlNamesArtifact(distDir: string, path: string)
    requires PlainAbsolute(distDir) && Canonical(path)
    ensures distDir + PropsUrl(path) == PropsPath(distDir, path)
  {
    ArtifactPathsPlain(distDir, path);
    RouteDirPlain(distDir, path);
    PropsFileSuffix();
  }

  /** The props file's name after a `/`, as one literal. */
  lemma PropsFileSuffix()
    ensures "/" + "_props.json" == "/_props.json"
  {
  }

  /**
   * For every request path, the file the request-time module reads is the
   * props artifact the build writes for that path: `resolve(root, p, name)`
   * and `resolve(resolve(root, p), name)` agree.
   */
  lemma RuntimeReadsBuildArtifact(publicRoot: string, path: string)
    ensures StaticPropsFilePath(publicRoot, path) == PropsPath(publicRoot, path)
  {
    if path != "/" {
      ResolveNested(publicRoot, Tail(path), "_props.json");
    }
  }

  /**
   * The request-time module's public root, `resolve(__dirname, '../public')`
   * in the server output directory `resolve(root, 'dist/server')`, is the
   * client build's output directory `resolve(root, 'dist/public')`.
   */
  lemma PublicRootIsOutputDir(root: string)
    ensures Resolve([Resolve([root, "dist/server"]), "../public"]) == Resolve([root, "dist/public"])
  {
    assert "dist/server" == "dist" + "/" + "server" && "dist/public" == "dist" + "/" + "public";
    assert "../public" == ".." + "/" + "public";
    ResolveUp(root, "dist", "server", "public");
  }

  /**
   * The template the request-time module reads,
   * `resolve(__dirname, './ssr-template.html')`, is the copy the build wrote.
   */
  lemma RuntimeTemplateIsCopy(serverOutDir: string)
    ensures Resolve([serverOutDir, "./ssr-template.html"]) == SsrTemplatePath(serverOutDir)
  {
    assert "./ssr-template.html" == "." + "/" + "ssr-template.html";
    ResolveDot(serverOutDir, "ssr-template.html");
  }

  /**
   * After a completed build, the request-time module's cached static props
   * for any request path that normalises to a route's path are that route's
   * static props, provided parsing gives back what serialising was given.
   */
  lemma RuntimeSeesBuiltStaticProps(env: BuildEnv, o: Progress, routes: seq<Route>, route: Route, request: string)
    requires CanonicalTable(routes) && PlainAbsolute(env.distDir)
    requires route in routes && Normalize(request) == route.path
    requires Generate(env, o, routes).failure.None?
    requires env.loadStaticProps(route.path).Success?
    requires var sp := env.loadStaticProps(route.path).value; env.json.parse(env.json.stringify(sp)) == Some(sp)
    ensures LoadCachedStaticProps(Generate(env, o, routes).files, env.json, env.distDir, Normalize(request))
         == env.loadStaticProps(route.path).value
  {
    PropsArtifactWritten(env, o, routes, route);
    RuntimeReadsBuildArtifact(env.distDir, route.path);
  }

  /**
   * For a route outside the manifest, rendering at request time reproduces
   * the pre-built page byte for byte. The build writes into
   * `resolve(root, 'dist/public')` and `resolve(root, 'dist/server')`; the
   * request-time module finds its template and public root relative to the
   * latter; the server entry's `render` is `renderWithProps` over static
   * props overridden by server props.
   */
  lemma RuntimePageMatchesBuiltPage(
    routes: seq<Route>, root: string, distDir: string, serverOutDir: string, template: string, ssrFunctionCode: string,
    files0: map<string, string>,
    loadStaticProps: string -> Result<Props, string>, render: string -> Result<Rendered, string>,
    loadServerSideProps: string -> Result<Props, string>, renderWithProps: (string, Props) -> Result<string, string>,
    json: Serializer, route: Route, request: string)
    requires distDir == Resolve([root, "dist/public"]) && serverOutDir == Resolve([root, "dist/server"])
    requires CanonicalTable(routes) && PlainAbsolute(distDir)
    requires route in routes && route.path !in SsrRoutes(routes)
    requires Normalize(request) == route.path
    requires var env := EnvOf(routes, distDir, template, loadStaticProps, render, json);
      Generate(env, Progress(ServerFiles(files0, serverOutDir, template, ssrFunctionCode), 0, None), routes).failure.None?
    requires loadStaticProps(route.path).Success? && loadServerSideProps(route.path).Success?
    requires var sp := loadStaticProps(route.path).value; json.parse(json.stringify(sp)) == Some(sp)
    requires var props := Merge(loadStaticProps(route.path).value, loadServerSideProps(route.path).value);
      renderWithProps(route.path, props).Success?
      && render(route.path) == Success(Rendered(renderWithProps(route.path, props).value, props))
    ensures var env := EnvOf(routes, distDir, template, loadStaticProps, render, json);
      var files := Generate(env, Progress(ServerFiles(files0, serverOutDir, template, ssrFunctionCode), 0, None), routes).files;
      HtmlPath(distDir, route.path) in files
      && RenderSsrPage(files, json, Resolve([serverOutDir, "../public"]), Resolve([serverOutDir, "./ssr-template.html"]),
                       RoutesScript(json, SsrRoutes(routes)), loadServerSideProps, renderWithProps, request)
         == Success(files[HtmlPath(distDir, route.path)])
  {
    var env := EnvOf(routes, distDir, template, loadStaticProps, render, json);
    var o := Progress(ServerFiles(files0, serverOutDir, template, ssrFunctionCode), 0, None);
    var files := Generate(env, o, routes).files;
    PublicRootIsOutputDir(root);
    RuntimeTemplateIsCopy(serverOutDir);
    ServerFilesSurviveLoop(env, files0, routes, serverOutDir, template, ssrFunctionCode);
    RuntimeSeesBuiltStaticProps(env, o, routes, route, request);
    PageArtifactWritten(env, o, routes, route);
    var props := Merge(loadStaticProps(route.path).value, loadServerSideProps(route.path).value);
    assert RenderRouteProps(files, json, distDir, loadServerSideProps, request) == Success(props);
  }

  /**
   * For a route outside the manifest, the development server's page for a
   * URL whose pathname is that route's path is the page the build wrote,
   * given the same template, renderer and serialiser.
   */
  lemma DevPageMatchesBuiltPage(env: BuildEnv, o: Progress, routes: seq<Route>, route: Route,
                                url: string, pathname: UrlPathname)
    requires env.ssrRoutes == SsrRoutes(routes)
    requires CanonicalTable(routes) && PlainAbsolute(env.distDir)
    requires route in routes && route.path !in env.ssrRoutes
    requires Generate(env, o, routes).failure.None?
    requires pathname(url) == Success(route.path)
    ensures HtmlPath(env.distDir, route.path) in Generate(env, o, routes).files
    ensures PageHandler(url, pathname, Success(env.template), env.render, routes, env.json)
         == HtmlResponse(200, Generate(env, o, routes).files[HtmlPath(env.distDir, route.path)])
  {
    PageArtifactWritten(env, o, routes, route);
  }

  /**
   * After a completed build, the development props endpoint and the
   * request-time `renderRouteProps` return the same props for a request
   * path that names a route directly (its own pathname, already normalised),
   * given the parse/serialise round trip of the built static props.
   */
  lemma DevPropsMatchRuntimeProps(env: BuildEnv, o: Progress, routes: seq<Route>, route: Route,
                                  request: string, pathname: UrlPathname,
                                  loadServerSideProps: string -> Result<Props, string>)
    requires CanonicalTable(routes) && PlainAbsolute(env.distDir)
    requires route in routes
    requires Generate(env, o, routes).failure.None?
    requires StartsWith(request, "/") && pathname(request) == Success(request) && Normalize(request) == request
    requires route.path == request
    requires env.loadStaticProps(route.path).Success?
    requires var sp := env.loadStaticProps(route.path).value; env.json.parse(env.json.stringify(sp)) == Some(sp)
    requires loadServerSideProps(request).Success?
    ensures PropsHandler(QueryString(request), pathname, env.loadStaticProps, loadServerSideProps)
         == JsonResponse(200, true, PropsBody(RenderRouteProps(Generate(env, o, routes).files, env.json, env.distDir,
                                                              loadServerSideProps, request).value))
  {
    PropsArtifactWritten(env, o, routes, route);
    RuntimeSeesBuiltStaticProps(env, o, routes, route, request);
  }
}
