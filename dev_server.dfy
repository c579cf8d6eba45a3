/**
 * The decisions of the development server (lib/commands/dev.ts): the props
 * endpoint `/__matcha_props` and the page handler, each as a function from
 * the request and the freshly loaded server entry to the response.
 */
module DevServer {
  import opened Wrappers
  import opened Text
  import opened Values
  import opened Routes
  import opened Pages
  import opened SiteGenerator

  /** `req.query.path`: absent, a string, or something else (a repeated or nested parameter). */
  datatype QueryValue = QueryAbsent | QueryString(s: string) | QueryOther

  /** The JSON body sent: the props, or `{ error }`. */
  datatype Body = PropsBody(props: Props) | ErrorBody(error: string)

  /** A JSON response: status, whether `Cache-Control: no-store` is set, and body. */
  datatype JsonResponse = JsonResponse(status: nat, noStore: bool, body: Body)

  /** An HTML (or plain error text) response. */
  datatype HtmlResponse = HtmlResponse(status: nat, body: string)

  /** The route path a request asks for: the query string when it is a string, `/` otherwise. */
  function RequestedPath(query: QueryValue): (p: string)
    ensures query.QueryString? ==> p == query.s
    ensures !query.QueryString? ==> p == "/"
  {
    if query.QueryString? then query.s else "/"
  }

  /**
   * `new URL(path, 'http://localhost').pathname`: the pathname, or the
   * message of the `TypeError` the constructor throws (for instance on `//`).
   */
  type UrlPathname = string -> Result<string, string>

  /**
   * The `/__matcha_props` handler. The URL is parsed first, then the
   * server entry's `loadStaticProps` and `loadServerSideProps` are called,
   * in that order, on its pathname; an exception of any of these steps is
   * answered 500 with its message.
   */
  function PropsHandler(query: QueryValue, pathname: UrlPathname,
                        loadStaticProps: string -> Result<Props, string>,
                        loadServerSideProps: string -> Result<Props, string>): (r: JsonResponse)
    ensures !StartsWith(RequestedPath(query), "/") ==> r == JsonResponse(400, false, ErrorBody("Invalid path"))
    ensures StartsWith(RequestedPath(query), "/") ==>
      match pathname(RequestedPath(query))
      case Failure(e) => r == JsonResponse(500, false, ErrorBody(e))
      case Success(p) =>
        match loadStaticProps(p)
        case Failure(e) => r == JsonResponse(500, false, ErrorBody(e))
        case Success(staticProps) =>
          match loadServerSideProps(p)
          case Failure(e) => r == JsonResponse(500, false, ErrorBody(e))
          case Success(server) =>
            && r.status == 200 && r.noStore && r.body.PropsBody?
            && r.body.props.Keys == staticProps.Keys + server.Keys
            && (forall k :: k in server ==> r.body.props[k] == server[k])
            && (forall k :: k in staticProps && k !in server ==> r.body.props[k] == staticProps[k])
  {
    var routePath := RequestedPath(query);
    if !StartsWith(routePath, "/") then JsonResponse(400, false, ErrorBody("Invalid path"))
    else
      match pathname(routePath)
      case Failure(e) => JsonResponse(500, false, ErrorBody(e))
      case Success(parsedPath) =>
        match loadStaticProps(parsedPath)
        case Failure(e) => JsonResponse(500, false, ErrorBody(e))
        case Success(staticProps) =>
          match loadServerSideProps(parsedPath)
          case Failure(e) => JsonResponse(500, false, ErrorBody(e))
          case Success(server) => JsonResponse(200, true, PropsBody(Merge(staticProps, server)))
  }

  /** An invalid path is answered 400 whatever the URL parser and the loaders would do: none is consulted. */
  lemma InvalidPathIgnoresLoaders(query: QueryValue, pathname1: UrlPathname, pathname2: UrlPathname,
                                  static1: string -> Result<Props, string>, server1: string -> Result<Props, string>,
                                  static2: string -> Result<Props, string>, server2: string -> Result<Props, string>)
    requires !StartsWith(RequestedPath(query), "/")
    ensures PropsHandler(query, pathname1, static1, server1) == PropsHandler(query, pathname2, static2, server2)
    ensures PropsHandler(query, pathname1, static1, server1).status == 400
  {
  }

  /** A request without a string `path` parameter is answered as a request for `/`, which is never rejected as invalid. */
  lemma MissingPathIsRoot(query: QueryValue, pathname: UrlPathname,
                          loadStaticProps: string -> Result<Props, string>,
                          loadServerSideProps: string -> Result<Props, string>)
    requires !query.QueryString?
    ensures PropsHandler(query, pathname, loadStaticProps, loadServerSideProps)
         == PropsHandler(QueryString("/"), pathname, loadStaticProps, loadServerSideProps)
    ensures PropsHandler(query, pathname, loadStaticProps, loadServerSideProps).status != 400
  {
  }

  /**
   * The page handler. The URL is parsed first; `template` is the read and
   * transformed `index.html` (either step may throw); `render` is the
   * server entry's `render`, given the request's pathname. The page carries
   * the render's props and the manifest of the current route table,
   * assembled as in the build.
   */
  function PageHandler(url: string, pathname: UrlPathname, template: Result<string, string>,
                       render: string -> Result<Rendered, string>, routes: seq<Route>, json: Serializer): (r: HtmlResponse)
    ensures r.status == 200 <==>
      pathname(url).Success? && template.Success? && render(pathname(url).value).Success?
    ensures pathname(url).Failure? ==> r == HtmlResponse(500, pathname(url).error)
    ensures pathname(url).Success? && template.Failure? ==> r == HtmlResponse(500, template.error)
    ensures pathname(url).Success? && template.Success? && render(pathname(url).value).Failure?
            ==> r == HtmlResponse(500, render(pathname(url).value).error)
    ensures r.status == 200 ==>
      var rendered := render(pathname(url).value).value;
      r.body == AssemblePage(template.value, rendered.html,
                             PropsScript(json, rendered.props) + RoutesScript(json, SsrRoutes(routes)))
  {
    match pathname(url)
    case Failure(e) => HtmlResponse(500, e)
    case Success(p) =>
      match template
      case Failure(e) => HtmlResponse(500, e)
      case Success(t) =>
        match render(p)
        case Failure(e) => HtmlResponse(500, e)
        case Success(rendered) =>
          HtmlResponse(200, AssemblePage(t, rendered.html,
                                         PropsScript(json, rendered.props) + RoutesScript(json, SsrRoutes(routes))))
  }
}
