/**
 * The client router of src/router.tsx: the per-route props URL, the props
 * fetch that never fails, the view selection, and the router state that
 * `navigate` and the `popstate` handler update step by step.
 */
module Router {
  import opened Wrappers
  import opened Values
  import opened Routes

  /** The per-route props URL: `/_props.json` for the root, `<path>/_props.json` otherwise. */
  function PropsUrl(path: string): (url: string)
    ensures path == "/" ==> url == "/_props.json"
    ensures path != "/" ==> |path| <= |url| && url[..|path|] == path && url[|path|..] == "/_props.json"
  {
    if path == "/" then "/_props.json" else path + "/_props.json"
  }

  /**
   * What `fetch(url)` delivers: a response with its `ok` flag and the body
   * parsed as JSON (none when `res.json()` throws), or a rejected fetch.
   */
  datatype FetchResponse = Received(ok: bool, body: Option<Props>) | NetworkError

  /** The network as the browser sees it at one moment: the response to each URL. */
  type Network = string -> FetchResponse

  /**
   * `fetchRouteProps`: the body of an ok response to the route's props URL
   * whose JSON parses; `{}` for a response that is not ok, a body that does
   * not parse, or a fetch that throws.
   */
  function FetchRouteProps(net: Network, path: string): (props: Props)
    ensures net(PropsUrl(path)).Received? && net(PropsUrl(path)).ok && net(PropsUrl(path)).body.Some?
            ==> props == net(PropsUrl(path)).body.value
    ensures !net(PropsUrl(path)).Received? || !net(PropsUrl(path)).ok || net(PropsUrl(path)).body.None?
            ==> props == map[]
  {
    match net(PropsUrl(path))
    case Received(true, Some(body)) => body
    case _ => map[]
  }

  /** The props fetched for a path depend only on the answer to that path's props URL. */
  lemma FetchReadsOnlyPropsUrl(net1: Network, net2: Network, path: string)
    requires net1(PropsUrl(path)) == net2(PropsUrl(path))
    ensures FetchRouteProps(net1, path) == FetchRouteProps(net2, path)
  {
  }

  /** What the router renders. */
  datatype View = NotFound | Loading | Page(component: Component, props: Props)

  /**
   * The render selection: an unmatched path shows the 404 view whatever
   * `isLoading` is; a matched path shows the loading view while loading and
   * otherwise the matched route's component with the current props.
   */
  function RenderView(routes: seq<Route>, path: string, isLoading: bool, props: Props): (v: View)
    ensures v.NotFound? <==> forall i | 0 <= i < |routes| :: routes[i].path != Normalize(path)
    ensures v.Loading? <==> isLoading && exists i | 0 <= i < |routes| :: routes[i].path == Normalize(path)
    ensures v.Page? ==>
      !isLoading && v.props == props
      && MatchRoute(routes, path).Some? && v.component == MatchRoute(routes, path).value.component
  {
    match MatchRoute(routes, path)
    case None => NotFound
    case Some(route) => if isLoading then Loading else Page(route.component, props)
  }

  /** A browser session-history entry: its URL and the state stored with `pushState`. */
  datatype HistoryEntry = HistoryEntry(url: string, state: Option<Props>)

  /**
   * The `Router` component's state (`path`, `props`, `isLoading`) together
   * with the browser session history it pushes onto and is notified from.
   * `history[cursor]` is the current entry; `location.pathname` is its URL.
   */
  class ClientRouter {
    const routes: seq<Route>
    var path: string
    var props: Props
    var isLoading: bool
    var history: seq<HistoryEntry>
    var cursor: nat

    ghost predicate Valid()
      reads this
    {
      cursor < |history|
    }

    /**
     * The first render: `path` and `props` are the server-embedded values
     * (`{}` when no props were embedded), not loading; the page was reached
     * by loading `location`, so its history entry holds no state.
     */
    constructor (routes: seq<Route>, initialPath: string, initialProps: Option<Props>, location: string)
      ensures Valid()
      ensures this.routes == routes
      ensures path == initialPath && !isLoading
      ensures props == (if initialProps.Some? then initialProps.value else map[])
      ensures history == [HistoryEntry(location, None)] && cursor == 0
    {
      this.routes := routes;
      path := initialPath;
      props := if initialProps.Some? then initialProps.value else map[];
      isLoading := false;
      history := [HistoryEntry(location, None)];
      cursor := 0;
    }

    /** What the router currently renders. */
    function View(): (v: View)
      reads this
      ensures v.NotFound? <==> MatchRoute(routes, path).None?
    {
      RenderView(routes, path, isLoading, props)
    }

    /** `navigate(to)` up to the await: the fetch for `Normalize(to)` is in flight. */
    method StartNavigate(to: string)
      requires Valid()
      modifies this
      ensures Valid() && isLoading
      ensures path == old(path) && props == old(props)
      ensures history == old(history) && cursor == old(cursor)
    {
      isLoading := true;
    }

    /**
     * `navigate(to)` after the fetch resolved: one entry holding the fetched
     * props is pushed under the URL `to` as given (entries after the current
     * one are dropped), then `path` becomes the normalised `to`, `props` the
     * fetched props, and loading ends.
     */
    method FinishNavigate(to: string, net: Network)
      requires Valid()
      modifies this
      ensures Valid() && !isLoading
      ensures path == Normalize(to) && props == FetchRouteProps(net, Normalize(to))
      ensures history == old(history[..cursor + 1]) + [HistoryEntry(to, Some(props))]
      ensures cursor == old(cursor) + 1
    {
      var newProps := FetchRouteProps(net, Normalize(to));
      history := history[..cursor + 1] + [HistoryEntry(to, Some(newProps))];
      cursor := cursor + 1;
      path := Normalize(to);
      props := newProps;
      isLoading := false;
    }

    /** `navigate(to)` run to completion with no other event in between. */
    method Navigate(to: string, net: Network)
      requires Valid()
      modifies this
      ensures Valid() && !isLoading
      ensures path == Normalize(to) && props == FetchRouteProps(net, Normalize(to))
      ensures history == old(history[..cursor + 1]) + [HistoryEntry(to, Some(props))]
      ensures cursor == old(cursor) + 1
    {
      StartNavigate(to);
      FinishNavigate(to, net);
    }

    /**
     * The browser's `history.go(delta)`: when the target entry exists the
     * cursor moves to it and a `popstate` event is due; otherwise nothing
     * happens.
     */
    method Go(delta: int) returns (popped: bool)
      requires Valid()
      modifies this
      ensures Valid()
      ensures popped <==> delta != 0 && 0 <= old(cursor) + delta < |history|
      ensures cursor == if popped then old(cursor) + delta else old(cursor)
      ensures history == old(history) && path == old(path) && props == old(props)
      ensures isLoading == old(isLoading)
    {
      popped := delta != 0 && 0 <= cursor + delta < |history|;
      if popped {
        cursor := cursor + delta;
      }
    }

    /**
     * The `popstate` handler up to its await: `path` becomes the normalised
     * URL of the current entry; stored props are reused at once, and only
     * when there are none does loading start for a fetch.
     */
    method BeginPopState() returns (newPath: string, fetching: bool)
      requires Valid()
      modifies this
      ensures Valid() && history == old(history) && cursor == old(cursor)
      ensures newPath == Normalize(history[cursor].url) && path == newPath
      ensures fetching <==> history[cursor].state.None?
      ensures !fetching ==> props == history[cursor].state.value && isLoading == old(isLoading)
      ensures fetching ==> props == old(props) && isLoading
    {
      newPath := Normalize(history[cursor].url);
      path := newPath;
      fetching := history[cursor].state.None?;
      if !fetching {
        props := history[cursor].state.value;
      } else {
        isLoading := true;
      }
    }

    /** The `popstate` handler after its fetch for `newPath` resolved. */
    method FinishPopState(newPath: string, net: Network)
      requires Valid()
      modifies this
      ensures Valid() && !isLoading
      ensures props == FetchRouteProps(net, newPath)
      ensures path == old(path) && history == old(history) && cursor == old(cursor)
    {
      props := FetchRouteProps(net, newPath);
      isLoading := false;
    }

    /** A `popstate` event handled to completion with no other event in between. */
    method PopState(net: Network)
      requires Valid()
      modifies this
      ensures Valid() && history == old(history) && cursor == old(cursor)
      ensures path == Normalize(history[cursor].url)
      ensures history[cursor].state.Some? ==> props == history[cursor].state.value && isLoading == old(isLoading)
      ensures history[cursor].state.None? ==> props == FetchRouteProps(net, path) && !isLoading
    {
      var newPath, fetching := BeginPopState();
      if fetching {
        FinishPopState(newPath, net);
      }
    }
  }

  /**
   * Back and forward replay: after loading `start` and navigating to `to`,
   * going back refetches the landing page's props (its entry has no stored
   * state), and going forward again restores the props fetched by the
   * navigation without asking the network, whatever it now answers.
   */
  method BackForwardReplay(routes: seq<Route>, start: string, to: string,
                           net1: Network, net2: Network, net3: Network)
    returns (backPath: string, backProps: Props, forwardPath: string, forwardProps: Props)
    ensures backPath == Normalize(start) && backProps == FetchRouteProps(net2, Normalize(start))
    ensures forwardPath == Normalize(to) && forwardProps == FetchRouteProps(net1, Normalize(to))
  {
    var r := new ClientRouter(routes, Normalize(start), None, start);
    r.Navigate(to, net1);
    var popped := r.Go(-1);
    r.PopState(net2);
    backPath, backProps := r.path, r.props;
    popped := r.Go(1);
    r.PopState(net3);
    forwardPath, forwardProps := r.path, r.props;
  }

  /**
   * Overlapping navigations are not ordered: when the navigation to `a` is
   * started first but its fetch resolves last, the router ends on `a` with
   * `a`'s props, and loading already ended when `b`'s fetch resolved.
   */
  method StaleNavigationWins(routes: seq<Route>, start: string, a: string, b: string, net: Network)
    returns (loadingBetween: bool, finalPath: string, finalProps: Props)
    ensures !loadingBetween
    ensures finalPath == Normalize(a) && finalProps == FetchRouteProps(net, Normalize(a))
  {
    var r := new ClientRouter(routes, Normalize(start), None, start);
    r.StartNavigate(a);
    r.StartNavigate(b);
    r.FinishNavigate(b, net);
    loadingBetween := r.isLoading;
    r.FinishNavigate(a, net);
    finalPath, finalProps := r.path, r.props;
  }
}
