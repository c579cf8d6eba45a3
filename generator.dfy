/**
 * The build-time site generator (`closeBundle` in lib/plugin.ts): it copies
 * the page template for the request-time module and writes that module,
 * then walks the route table,
 * writing every route's static props and, for the routes outside the SSR
 * manifest, a pre-rendered page, and counts those pages.
 */
module SiteGenerator {
  import opened Wrappers
  import opened Text
  import opened Values
  import opened Routes
  import opened Pages
  import opened Paths

  /** `path.slice(1)`. */
  function Tail(p: string): string {
    if |p| == 0 then "" else p[1..]
  }

  /** `distDir` for `/`, otherwise `resolve(distDir, path.slice(1))`: the directory of a route's artifacts. */
  function RouteDir(distDir: string, path: string): string {
    if path == "/" then distDir else Resolve([distDir, Tail(path)])
  }

  /**
   * For a plain output directory and a canonical route path, the route's
   * directory is the output directory followed by the route path, and it is
   * plain again.
   */
  lemma RouteDirPlain(d: string, p: string)
    requires PlainAbsolute(d) && Canonical(p)
    ensures RouteDir(d, p) == (if p == "/" then d else d + p)
    ensures PlainAbsolute(RouteDir(d, p))
  {
    if p != "/" {
      ResolvePlain(d, Tail(p));
      assert p == "/" + Tail(p);
    }
  }

  /** `resolve(routeDir, '_props.json')`: it always names a `_props.json` file. */
  function PropsPath(distDir: string, path: string): (r: string)
    ensures EndsInFile(r, "_props.json")
  {
    FileIn(RouteDir(distDir, path), "_props.json")
  }

  /** `resolve(routeDir, 'index.html')`: it always names an `index.html` file. */
  function HtmlPath(distDir: string, path: string): (r: string)
    ensures EndsInFile(r, "index.html")
  {
    FileIn(RouteDir(distDir, path), "index.html")
  }

  /**
   * For a plain output directory and a canonical route path, both artifacts
   * are the route directory followed by `/` and the file name.
   */
  lemma ArtifactPathsPlain(d: string, p: string)
    requires PlainAbsolute(d) && Canonical(p)
    ensures PropsPath(d, p) == Join(RouteDir(d, p), "_props.json")
    ensures HtmlPath(d, p) == Join(RouteDir(d, p), "index.html")
  {
    RouteDirPlain(d, p);
    ResolveName(RouteDir(d, p), "_props.json");
    ResolveName(RouteDir(d, p), "index.html");
  }

  /** Every route path of the table is canonical. */
  ghost predicate CanonicalTable(routes: seq<Route>) {
    forall r :: r in routes ==> Canonical(r.path)
  }

  /** Distinct canonical route paths get distinct artifact directories. */
  lemma RouteDirInjective(d: string, p: string, q: string)
    requires PlainAbsolute(d) && Canonical(p) && Canonical(q)
    requires RouteDir(d, p) == RouteDir(d, q)
    ensures p == q
  {
    RouteDirPlain(d, p);
    RouteDirPlain(d, q);
    if p != "/" && q != "/" {
      assert p == (d + p)[|d|..];
      assert q == (d + q)[|d|..];
    }
  }

  /** The props artifact path and the page path each determine a canonical route path. */
  lemma ArtifactPathsInjective(d: string, p: string, q: string)
    requires PlainAbsolute(d) && Canonical(p) && Canonical(q)
    ensures PropsPath(d, p) == PropsPath(d, q) ==> p == q
    ensures HtmlPath(d, p) == HtmlPath(d, q) ==> p == q
  {
    ArtifactPathsPlain(d, p);
    ArtifactPathsPlain(d, q);
    if PropsPath(d, p) == PropsPath(d, q) {
      JoinInjective(RouteDir(d, p), RouteDir(d, q), "_props.json");
      RouteDirInjective(d, p, q);
    }
    if HtmlPath(d, p) == HtmlPath(d, q) {
      JoinInjective(RouteDir(d, p), RouteDir(d, q), "index.html");
      RouteDirInjective(d, p, q);
    }
  }

  /**
   * Without canonical paths the artifacts collide: `/a` and `/a/` resolve
   * to the same directory, so the later route overwrites the earlier one's
   * props and page.
   */
  lemma TrailingSlashRoutesCollide(d: string, p: string)
    requires |p| >= 2 && p[0] == '/' && p[1] != '/'
    ensures p + "/" != p
    ensures RouteDir(d, p + "/") == RouteDir(d, p)
    ensures PropsPath(d, p + "/") == PropsPath(d, p) && HtmlPath(d, p + "/") == HtmlPath(d, p)
  {
    assert Tail(p + "/") == Tail(p) + "/";
    ResolveIgnoresTrailingSlash(d, Tail(p));
  }

  /** A props artifact is never a page. */
  lemma PropsPathIsNotHtmlPath(d: string, p: string, q: string)
    ensures PropsPath(d, p) != HtmlPath(d, q)
  {
    LastCharsDiffer(PropsPath(d, p), "_props.json", HtmlPath(d, q), "index.html");
  }

  /** What the server entry's `render(url)` returns. */
  datatype Rendered = Rendered(html: string, props: Props)

  /**
   * The inputs of the route loop: the output directory, the template read
   * from it, the SSR manifest, the server entry's `loadStaticProps` and
   * `render` (each may throw, giving the message), and the serialiser.
   */
  datatype BuildEnv = BuildEnv(
    distDir: string,
    template: string,
    ssrRoutes: seq<string>,
    loadStaticProps: string -> Result<Props, string>,
    render: string -> Result<Rendered, string>,
    json: Serializer)

  /** The pre-rendered page of a static route. */
  function StaticPage(env: BuildEnv, r: Rendered): string {
    AssemblePage(env.template, r.html, PropsScript(env.json, r.props) + RoutesScript(env.json, env.ssrRoutes))
  }

  /** The output files so far, the pages rendered so far, and the exception that stopped the loop, if any. */
  datatype Progress = Progress(files: map<string, string>, rendered: nat, failure: Option<string>)

  /** One iteration of the route loop; once an exception was raised nothing more happens. */
  function Step(env: BuildEnv, o: Progress, route: Route): Progress {
    if o.failure.Some? then o
    else match env.loadStaticProps(route.path)
      case Failure(e) => o.(failure := Some(e))
      case Success(staticProps) =>
        var files := o.files[PropsPath(env.distDir, route.path) := env.json.stringify(staticProps)];
        if route.path in env.ssrRoutes then o.(files := files)
        else match env.render(route.path)
          case Failure(e) => Progress(files, o.rendered, Some(e))
          case Success(r) => Progress(files[HtmlPath(env.distDir, route.path) := StaticPage(env, r)], o.rendered + 1, None)
  }

  /** The route loop over `routes`, in table order. */
  function Generate(env: BuildEnv, o: Progress, routes: seq<Route>): Progress
    decreases |routes|
  {
    if |routes| == 0 then o else Generate(env, Step(env, o, routes[0]), routes[1..])
  }

  /** The loop from index `i` is one step on `routes[i]`, then the loop from `i + 1`. */
  lemma GenerateFrom(env: BuildEnv, o: Progress, routes: seq<Route>, i: nat)
    requires i < |routes|
    ensures Generate(env, o, routes[i..]) == Generate(env, Step(env, o, routes[i]), routes[i + 1..])
  {
    assert routes[i..][0] == routes[i] && routes[i..][1..] == routes[i + 1..];
  }

  /** The routes that get a pre-rendered page, in table order. */
  function StaticRoutes(routes: seq<Route>, ssrRoutes: seq<string>): seq<Route> {
    if |routes| == 0 then []
    else if routes[0].path in ssrRoutes then StaticRoutes(routes[1..], ssrRoutes)
    else [routes[0]] + StaticRoutes(routes[1..], ssrRoutes)
  }

  lemma {:induction false} GenerateStaysFailed(env: BuildEnv, o: Progress, routes: seq<Route>)
    requires o.failure.Some?
    ensures Generate(env, o, routes) == o
    decreases |routes|
  {
    if |routes| > 0 {
      GenerateStaysFailed(env, Step(env, o, routes[0]), routes[1..]);
    }
  }

  /**
   * The build completes exactly when every route's static loader returns and
   * every route outside the manifest renders; any exception aborts it.
   */
  lemma {:induction false} GenerateSucceedsIff(env: BuildEnv, o: Progress, routes: seq<Route>)
    ensures Generate(env, o, routes).failure.None?
        <==> o.failure.None? && forall r :: r in routes ==>
               env.loadStaticProps(r.path).Success? && (r.path !in env.ssrRoutes ==> env.render(r.path).Success?)
    decreases |routes|
  {
    if |routes| == 0 {
    } else if o.failure.Some? {
      GenerateStaysFailed(env, o, routes);
    } else {
      var o1 := Step(env, o, routes[0]);
      GenerateSucceedsIff(env, o1, routes[1..]);
      assert forall r :: r in routes <==> r == routes[0] || r in routes[1..];
      if o1.failure.Some? {
        GenerateStaysFailed(env, o1, routes[1..]);
      }
    }
  }

  /** An iteration that writes neither of its artifacts at `k` leaves `k` as it was. */
  lemma StepKeeps(env: BuildEnv, o: Progress, route: Route, k: string)
    requires PropsPath(env.distDir, route.path) != k
    requires route.path !in env.ssrRoutes ==> HtmlPath(env.distDir, route.path) != k
    ensures k in Step(env, o, route).files <==> k in o.files
    ensures k in o.files ==> Step(env, o, route).files[k] == o.files[k]
  {
  }

  /**
   * A file that no iteration writes keeps its presence and content, whether
   * or not the loop completes: an SSR route's page is never written.
   */
  lemma {:induction false} UntouchedFile(env: BuildEnv, o: Progress, routes: seq<Route>, k: string)
    requires forall r :: r in routes ==> PropsPath(env.distDir, r.path) != k
    requires forall r :: r in routes && r.path !in env.ssrRoutes ==> HtmlPath(env.distDir, r.path) != k
    ensures k in Generate(env, o, routes).files <==> k in o.files
    ensures k in o.files ==> Generate(env, o, routes).files[k] == o.files[k]
    decreases |routes|
  {
    if |routes| > 0 {
      StepKeeps(env, o, routes[0], k);
      UntouchedFile(env, Step(env, o, routes[0]), routes[1..], k);
    }
  }

  /** Route `r` writes only `c` at `k`, if it writes `k` at all. */
  ghost predicate WritesOnly(env: BuildEnv, r: Route, k: string, c: string) {
    && (PropsPath(env.distDir, r.path) == k && env.loadStaticProps(r.path).Success? ==>
          env.json.stringify(env.loadStaticProps(r.path).value) == c)
    && (HtmlPath(env.distDir, r.path) == k && r.path !in env.ssrRoutes
        && env.loadStaticProps(r.path).Success? && env.render(r.path).Success? ==>
          StaticPage(env, env.render(r.path).value) == c)
  }

  lemma {:induction false} KeptFile(env: BuildEnv, o: Progress, routes: seq<Route>, k: string, c: string)
    requires k in o.files && o.files[k] == c
    requires forall r :: r in routes ==> WritesOnly(env, r, k, c)
    ensures k in Generate(env, o, routes).files && Generate(env, o, routes).files[k] == c
    decreases |routes|
  {
    if |routes| > 0 {
      var o1 := Step(env, o, routes[0]);
      assert WritesOnly(env, routes[0], k, c);
      assert k in o1.files && o1.files[k] == c;
      KeptFile(env, o1, routes[1..], k, c);
    }
  }

  /** In a completed build, the loop started without a failure and every route's loaders returned. */
  lemma GenerateSucceededOn(env: BuildEnv, o: Progress, routes: seq<Route>, r: Route)
    requires Generate(env, o, routes).failure.None? && r in routes
    ensures o.failure.None? && env.loadStaticProps(r.path).Success?
    ensures r.path !in env.ssrRoutes ==> env.render(r.path).Success?
  {
    GenerateSucceedsIff(env, o, routes);
  }

  /** An iteration whose loader returns writes the route's props artifact. */
  lemma StepWritesProps(env: BuildEnv, o: Progress, route: Route)
    requires o.failure.None? && env.loadStaticProps(route.path).Success?
    ensures var k := PropsPath(env.distDir, route.path);
      k in Step(env, o, route).files
      && Step(env, o, route).files[k] == env.json.stringify(env.loadStaticProps(route.path).value)
  {
    PropsPathIsNotHtmlPath(env.distDir, route.path, route.path);
  }

  /** A route's props artifact, once written, survives the later routes of a canonical table. */
  lemma PropsKept(env: BuildEnv, o: Progress, routes: seq<Route>, path: string)
    requires CanonicalTable(routes) && PlainAbsolute(env.distDir) && Canonical(path)
    requires env.loadStaticProps(path).Success?
    requires var k := PropsPath(env.distDir, path);
      k in o.files && o.files[k] == env.json.stringify(env.loadStaticProps(path).value)
    ensures var k := PropsPath(env.distDir, path);
      k in Generate(env, o, routes).files
      && Generate(env, o, routes).files[k] == env.json.stringify(env.loadStaticProps(path).value)
  {
    var k := PropsPath(env.distDir, path);
    var c := env.json.stringify(env.loadStaticProps(path).value);
    forall r | r in routes ensures WritesOnly(env, r, k, c) {
      ArtifactPathsInjective(env.distDir, r.path, path);
      PropsPathIsNotHtmlPath(env.distDir, path, r.path);
    }
    KeptFile(env, o, routes, k, c);
  }

  /** After a completed build, every route's props artifact holds exactly its static props. */
  lemma {:induction false} PropsArtifactWritten(env: BuildEnv, o: Progress, routes: seq<Route>, route: Route)
    requires CanonicalTable(routes) && PlainAbsolute(env.distDir) && route in routes
    requires Generate(env, o, routes).failure.None?
    ensures env.loadStaticProps(route.path).Success?
    ensures var k := PropsPath(env.distDir, route.path);
      k in Generate(env, o, routes).files
      && Generate(env, o, routes).files[k] == env.json.stringify(env.loadStaticProps(route.path).value)
    decreases |routes|
  {
    GenerateSucceededOn(env, o, routes, route);
    GenerateSucceededOn(env, o, routes, routes[0]);
    var o1 := Step(env, o, routes[0]);
    if route.path == routes[0].path {
      StepWritesProps(env, o, routes[0]);
      PropsKept(env, o1, routes[1..], route.path);
    } else {
      assert route in routes[1..];
      PropsArtifactWritten(env, o1, routes[1..], route);
    }
  }

  /** A route's page, once written, survives the later routes of a canonical table. */
  lemma PageKept(env: BuildEnv, o: Progress, routes: seq<Route>, path: string)
    requires CanonicalTable(routes) && PlainAbsolute(env.distDir) && Canonical(path) && path !in env.ssrRoutes
    requires env.loadStaticProps(path).Success? && env.render(path).Success?
    requires var k := HtmlPath(env.distDir, path);
      k in o.files && o.files[k] == StaticPage(env, env.render(path).value)
    ensures var k := HtmlPath(env.distDir, path);
      k in Generate(env, o, routes).files
      && Generate(env, o, routes).files[k] == StaticPage(env, env.render(path).value)
  {
    var k := HtmlPath(env.distDir, path);
    var c := StaticPage(env, env.render(path).value);
    forall r | r in routes ensures WritesOnly(env, r, k, c) {
      ArtifactPathsInjective(env.distDir, r.path, path);
      PropsPathIsNotHtmlPath(env.distDir, r.path, path);
    }
    KeptFile(env, o, routes, k, c);
  }

  /** After a completed build, every route outside the manifest has its page, assembled from its render. */
  lemma {:induction false} PageArtifactWritten(env: BuildEnv, o: Progress, routes: seq<Route>, route: Route)
    requires CanonicalTable(routes) && PlainAbsolute(env.distDir) && route in routes && route.path !in env.ssrRoutes
    requires Generate(env, o, routes).failure.None?
    ensures env.render(route.path).Success?
    ensures var k := HtmlPath(env.distDir, route.path);
      k in Generate(env, o, routes).files
      && Generate(env, o, routes).files[k] == StaticPage(env, env.render(route.path).value)
    decreases |routes|
  {
    GenerateSucceededOn(env, o, routes, route);
    GenerateSucceededOn(env, o, routes, routes[0]);
    var o1 := Step(env, o, routes[0]);
    if route.path == routes[0].path {
      PageKept(env, o1, routes[1..], route.path);
    } else {
      assert route in routes[1..];
      PageArtifactWritten(env, o1, routes[1..], route);
    }
  }

  /** A route in the manifest gets no page: its page path is left as it was before the loop. */
  lemma SsrRouteGetsNoPage(env: BuildEnv, o: Progress, routes: seq<Route>, route: Route)
    requires CanonicalTable(routes) && PlainAbsolute(env.distDir) && Canonical(route.path) && route.path in env.ssrRoutes
    ensures var k := HtmlPath(env.distDir, route.path);
      (k in Generate(env, o, routes).files <==> k in o.files)
      && (k in o.files ==> Generate(env, o, routes).files[k] == o.files[k])
  {
    var k := HtmlPath(env.distDir, route.path);
    forall r | r in routes
      ensures PropsPath(env.distDir, r.path) != k
      ensures r.path !in env.ssrRoutes ==> HtmlPath(env.distDir, r.path) != k
    {
      PropsPathIsNotHtmlPath(env.distDir, r.path, route.path);
      ArtifactPathsInjective(env.distDir, r.path, route.path);
    }
    UntouchedFile(env, o, routes, k);
  }

  /** `renderedCount` is the number of routes outside the manifest. */
  lemma {:induction false} RenderedCountIsStaticRoutes(env: BuildEnv, o: Progress, routes: seq<Route>)
    requires Generate(env, o, routes).failure.None?
    ensures Generate(env, o, routes).rendered == o.rendered + |StaticRoutes(routes, env.ssrRoutes)|
    decreases |routes|
  {
    GenerateSucceedsIff(env, o, routes);
    if |routes| > 0 {
      var o1 := Step(env, o, routes[0]);
      GenerateSucceedsIff(env, o1, routes[1..]);
      RenderedCountIsStaticRoutes(env, o1, routes[1..]);
    }
  }

  /** The output directory: file path to content. */
  class FileSystem {
    var files: map<string, string>

    constructor (files: map<string, string>)
      ensures this.files == files
    {
      this.files := files;
    }

    /** `readFile`: the content, or none when the file does not exist (the call throws). */
    method ReadFile(path: string) returns (content: Option<string>)
      ensures content.Some? <==> path in files
      ensures content.Some? ==> content.value == files[path]
    {
      content := if path in files then Some(files[path]) else None;
    }

    /** `writeFile`: creates or replaces one file. */
    method WriteFile(path: string, content: string)
      modifies this
      ensures files == old(files)[path := content]
    {
      files := files[path := content];
    }
  }

  /** `resolve(distDir, 'index.html')`: the client build's page template. */
  function TemplatePath(distDir: string): (r: string)
    ensures EndsInFile(r, "index.html")
  {
    FileIn(distDir, "index.html")
  }

  /** `resolve(serverOutDir, 'ssr-template.html')`: the template copy the request-time module reads. */
  function SsrTemplatePath(serverOutDir: string): (r: string)
    ensures EndsInFile(r, "ssr-template.html")
  {
    FileIn(serverOutDir, "ssr-template.html")
  }

  /** `resolve(serverOutDir, 'ssr-function.js')`: the emitted request-time module. */
  function SsrFunctionPath(serverOutDir: string): (r: string)
    ensures EndsInFile(r, "ssr-function.js")
  {
    FileIn(serverOutDir, "ssr-function.js")
  }

  /** The files before the route loop: the template copy, then the request-time module, written over `files`. */
  function ServerFiles(files: map<string, string>, serverOutDir: string, template: string, ssrFunctionCode: string)
    : (r: map<string, string>)
    ensures r.Keys == files.Keys + {SsrTemplatePath(serverOutDir), SsrFunctionPath(serverOutDir)}
    ensures r[SsrTemplatePath(serverOutDir)] == template && r[SsrFunctionPath(serverOutDir)] == ssrFunctionCode
    ensures forall k :: k in files && k != SsrTemplatePath(serverOutDir) && k != SsrFunctionPath(serverOutDir)
                        ==> r[k] == files[k]
  {
    var t, f := SsrTemplatePath(serverOutDir), SsrFunctionPath(serverOutDir);
    LastCharsDiffer(t, "ssr-template.html", f, "ssr-function.js");
    files[t := template][f := ssrFunctionCode]
  }

  /**
   * The two files the request-time module needs are never a route's
   * artifact, so they leave the route loop as they entered it, whether or
   * not the loop completes.
   */
  lemma ServerFilesSurviveLoop(env: BuildEnv, files: map<string, string>, routes: seq<Route>,
                               serverOutDir: string, template: string, ssrFunctionCode: string)
    ensures var out := Generate(env, Progress(ServerFiles(files, serverOutDir, template, ssrFunctionCode), 0, None), routes).files;
      && SsrTemplatePath(serverOutDir) in out && out[SsrTemplatePath(serverOutDir)] == template
      && SsrFunctionPath(serverOutDir) in out && out[SsrFunctionPath(serverOutDir)] == ssrFunctionCode
  {
    var o := Progress(ServerFiles(files, serverOutDir, template, ssrFunctionCode), 0, None);
    var t, f := SsrTemplatePath(serverOutDir), SsrFunctionPath(serverOutDir);
    forall r | r in routes
      ensures PropsPath(env.distDir, r.path) != t && PropsPath(env.distDir, r.path) != f
      ensures HtmlPath(env.distDir, r.path) != t && HtmlPath(env.distDir, r.path) != f
    {
      FileNamesDiffer(t, f, PropsPath(env.distDir, r.path), HtmlPath(env.distDir, r.path));
    }
    UntouchedFile(env, o, routes, t);
    UntouchedFile(env, o, routes, f);
  }

  /**
   * The file names keep the build's outputs apart: the template copy, the
   * request-time module, a props artifact and a page are four different
   * paths, wherever their directories are.
   */
  lemma FileNamesDiffer(t: string, f: string, p: string, h: string)
    requires EndsInFile(t, "ssr-template.html") && EndsInFile(f, "ssr-function.js")
    requires EndsInFile(p, "_props.json") && EndsInFile(h, "index.html")
    ensures t != f && t != p && t != h && f != p && f != h && p != h
  {
    LastCharsDiffer(t, "ssr-template.html", f, "ssr-function.js");
    LastCharsDiffer(t, "ssr-template.html", p, "_props.json");
    LongerNameDiffers(t, "ssr-template.html", h, "index.html");
    LastCharsDiffer(f, "ssr-function.js", p, "_props.json");
    LastCharsDiffer(f, "ssr-function.js", h, "index.html");
    LastCharsDiffer(p, "_props.json", h, "index.html");
  }

  /** The environment of the route loop once the template was read. */
  function EnvOf(routes: seq<Route>, distDir: string, template: string,
                 loadStaticProps: string -> Result<Props, string>,
                 render: string -> Result<Rendered, string>, json: Serializer): BuildEnv
  {
    BuildEnv(distDir, template, SsrRoutes(routes), loadStaticProps, render, json)
  }

  /**
   * One iteration of `closeBundle`'s route loop on the file system: the
   * static props are loaded and written, and for a route outside the
   * manifest the page is rendered and written; an exception stops it.
   */
  method BuildRoute(fs: FileSystem, env: BuildEnv, route: Route, renderedCount: nat) returns (o: Progress)
    modifies fs
    ensures o == Step(env, Progress(old(fs.files), renderedCount, None), route)
    ensures fs.files == o.files
  {
    var staticProps := env.loadStaticProps(route.path);
    if staticProps.Failure? {
      return Progress(fs.files, renderedCount, Some(staticProps.error));
    }
    fs.WriteFile(PropsPath(env.distDir, route.path), env.json.stringify(staticProps.value));
    if route.path in env.ssrRoutes {
      return Progress(fs.files, renderedCount, None);
    }
    var rendered := env.render(route.path);
    if rendered.Failure? {
      return Progress(fs.files, renderedCount, Some(rendered.error));
    }
    fs.WriteFile(HtmlPath(env.distDir, route.path), StaticPage(env, rendered.value));
    return Progress(fs.files, renderedCount + 1, None);
  }

  /**
   * `closeBundle` after the server entry was built and imported: the SSR
   * manifest is computed, the template is read (a missing one throws before
   * anything is written) and copied for the request-time module, the
   * request-time module itself (its text is `ssrFunctionCode`) is written,
   * and then the route loop runs; an exception in the loop propagates,
   * leaving the files written before it in place.
   */
  method CloseBundle(fs: FileSystem, routes: seq<Route>, distDir: string, serverOutDir: string,
                     ssrFunctionCode: string,
                     loadStaticProps: string -> Result<Props, string>,
                     render: string -> Result<Rendered, string>, json: Serializer)
    returns (result: Result<nat, Fault>)
    modifies fs
    ensures TemplatePath(distDir) !in old(fs.files)
      ==> result == Failure(MissingFile(TemplatePath(distDir))) && fs.files == old(fs.files)
    ensures TemplatePath(distDir) in old(fs.files) ==>
      var template := old(fs.files)[TemplatePath(distDir)];
      var env := EnvOf(routes, distDir, template, loadStaticProps, render, json);
      var o := Generate(env, Progress(ServerFiles(old(fs.files), serverOutDir, template, ssrFunctionCode), 0, None), routes);
      && fs.files == o.files
      && result == (if o.failure.None? then Success(o.rendered) else Failure(Thrown(o.failure.value)))
  {
    var templateFile := fs.ReadFile(TemplatePath(distDir));
    if templateFile.None? {
      return Failure(MissingFile(TemplatePath(distDir)));
    }
    var template := templateFile.value;
    fs.WriteFile(SsrTemplatePath(serverOutDir), template);
    fs.WriteFile(SsrFunctionPath(serverOutDir), ssrFunctionCode);
    var env := EnvOf(routes, distDir, template, loadStaticProps, render, json);
    ghost var start := Progress(fs.files, 0, None);

    var renderedCount := 0;
    for i := 0 to |routes|
      invariant Generate(env, start, routes) == Generate(env, Progress(fs.files, renderedCount, None), routes[i..])
    {
      GenerateFrom(env, Progress(fs.files, renderedCount, None), routes, i);
      var o := BuildRoute(fs, env, routes[i], renderedCount);
      if o.failure.Some? {
        GenerateStaysFailed(env, o, routes[i + 1..]);
        return Failure(Thrown(o.failure.value));
      }
      renderedCount := o.rendered;
    }
    return Success(renderedCount);
  }
}
