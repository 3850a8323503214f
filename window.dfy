/**
 * The process-wide window context (packages/react/src/window.ts): the base
 * URL, the eager flag, the registered routes with their removers, the
 * per-route caches of controller components and middleware lists, the
 * metadata <-> class maps, and the navigation handler that turns the
 * browser's pathname into the list of components the provider renders.
 *
 * The router (rou3) is an abstract lookup passed to the handler, the event
 * emitter is a counter of `location` events, and `window.history` is a log
 * of the entries pushed or replaced.
 */
module Window {
  import opened Wrappers
  import opened Strings
  import opened Metadata
  import opened Controllers

  /** `POPSTATE` */
  datatype PopState = Push | Replace

  datatype HistoryEntry = Pushed(url: string) | Replaced(url: string)

  /** The metadata a controller class is registered with; only `metaId` is read here. */
  datatype ControllerMetadata = ControllerMetadata(metaId: string, rest: nat)

  /** The closure `addRoute` returns; each call makes a new one. */
  datatype Remover = Remover(id: nat, path: string)

  /** What a route stores: the controller (eager) or the loader of it (lazy), and its own path. */
  datatype RouteData = RouteData(payload: ClassRef, expression: string)

  /** A router hit: the stored data and the parameters taken from the path. */
  datatype RouteMatch = RouteMatch(data: RouteData, params: Option<map<string, string>>)

  /** A cached controller component: the `lazy` wrapper of a loader, or the render closure of an instance. */
  datatype View = LazyView(cls: ClassRef) | RenderView(cls: ClassRef)

  datatype Cached = Cached(view: View, isLazy: bool)

  /** One entry of the provider's component list. */
  datatype Layer =
    | ProviderLayer(value: Location)
    | MiddlewareLayer(component: Component)
    | SuspenseLayer(fallback: Option<nat>)
    | ControllerLayer(view: View)

  datatype Leaf = NullLeaf | ChildrenLeaf | FragmentLeaf

  /** A rendered element tree: each layer wraps the tree below it. */
  datatype Tree = Leaf(leaf: Leaf) | Element(layer: Layer, child: Tree)

  datatype ProviderProps = ProviderProps(
    fallback: Option<nat>,
    globalMiddlewares: Option<seq<Component>>,
    routerMiddlewares: Option<seq<Component>>)

  /** What the browser reports: the raw pathname, the hash and the parsed query. */
  datatype BrowserLocation = BrowserLocation(pathname: string, hash: Option<string>, query: map<string, string>)

  /** The state the handler hands to the provider. */
  datatype Navigation = Navigation(
    pathname: string,
    hash: Option<string>,
    query: map<string, string>,
    params: map<string, string>,
    middlewares: seq<Layer>,
    node: Leaf,
    metaId: Option<string>)

  /** Every field of the context, for stating what an operation leaves alone. */
  datatype State = State(
    baseURL: string,
    eager: bool,
    router: map<string, RouteData>,
    routes: set<Remover>,
    nextRemover: nat,
    controllerCaches: map<string, Cached>,
    controllerMiddlewares: map<string, seq<Component>>,
    controllerMetadatas: map<ClassRef, ControllerMetadata>,
    controllerMaps: map<string, ClassRef>,
    history: seq<HistoryEntry>,
    events: nat)

  const BASE_URL_ERROR: string := "baseURL must be a valid URL and end with a slash"

  function PathnameError(base: string): string {
    "pathname must start with baseURL: " + base
  }

  // ---------------------------------------------------------------------
  // URLs
  // ---------------------------------------------------------------------

  /**
   * `getWindowLocationPathname`: the browser pathname with the base URL
   * removed and a `/` put back in front when the remainder lacks one.
   */
  function StripBase(base: string, pathname: string): (r: Result<string, string>)
    ensures r.Success? <==> StartsWith(pathname, base)
    ensures r.Failure? ==> r.error == PathnameError(base)
    ensures r.Success? ==> StartsWith(r.value, "/") && EndsWith(r.value, pathname[|base|..]) && |r.value| <= |pathname| - |base| + 1
    ensures r.Success? && StartsWith(pathname[|base|..], "/") ==> r.value == pathname[|base|..]
    ensures r.Success? && !StartsWith(pathname[|base|..], "/") ==> r.value == "/" + pathname[|base|..]
  {
    if !StartsWith(pathname, base) then Failure(PathnameError(base))
    else
      var rest := pathname[|base|..];
      if StartsWith(rest, "/") then Success(rest)
      else
        EndsWithConcat("/", rest);
        Success("/" + rest)
  }

  /** `url` with at most one leading `/` removed. */
  function DropSlash(url: string): string {
    if StartsWith(url, "/") then url[1..] else url
  }

  /** The URL `redirect` hands to the history: one not starting with the base gets the base in front, minus one leading `/`. */
  function RedirectTarget(base: string, url: string): (r: string)
    ensures StartsWith(r, base)
    ensures StartsWith(url, base) ==> r == url
    ensures !StartsWith(url, base) ==> r == base + DropSlash(url)
  {
    if StartsWith(url, base) then url
    else
      StartsWithConcat(base, if StartsWith(url, "/") then url[1..] else url);
      base + (if StartsWith(url, "/") then url[1..] else url)
  }

  /**
   * Redirecting to a URL outside the base and reading the pathname back
   * gives the URL as an absolute path, provided the URL does not begin
   * with two slashes.
   */
  lemma RedirectRoundTrip(base: string, url: string)
    requires !StartsWith(url, base)
    requires !StartsWith(DropSlash(url), "/")
    ensures StripBase(base, RedirectTarget(base, url)) == Success("/" + DropSlash(url))
  {
    var target := RedirectTarget(base, url);
    assert target == base + DropSlash(url);
    assert target[|base|..] == DropSlash(url);
  }

  /** For a path beginning with `/` this is the path itself. */
  lemma RedirectRoundTripPath(base: string, p: string)
    requires StartsWith(p, "/") && !StartsWith(p, base)
    requires !StartsWith(p[1..], "/")
    ensures StripBase(base, RedirectTarget(base, p)) == Success(p)
  {
    RedirectRoundTrip(base, p);
    assert p == [p[0]] + p[1..];
  }

  /** A URL already under the base is left as it is, so reading it back strips the base. */
  lemma RedirectKeepsPrefixed(base: string, url: string)
    requires StartsWith(url, base)
    ensures StripBase(base, RedirectTarget(base, url)) == StripBase(base, url)
  {
  }

  // ---------------------------------------------------------------------
  // Nesting
  // ---------------------------------------------------------------------

  function Reverse<T>(s: seq<T>): (r: seq<T>)
    ensures |r| == |s|
    ensures forall i :: 0 <= i < |s| ==> r[i] == s[|s| - 1 - i]
  {
    if s == [] then [] else Reverse(s[1..]) + [s[0]]
  }

  lemma ReverseReverse<T>(s: seq<T>)
    ensures Reverse(Reverse(s)) == s
  {
    assert forall i :: 0 <= i < |s| ==> Reverse(Reverse(s))[i] == s[i];
  }

  lemma ReverseSnoc<T>(s: seq<T>, x: T)
    ensures Reverse(s + [x]) == [x] + Reverse(s)
  {
    assert forall i :: 0 <= i < |s| + 1 ==> Reverse(s + [x])[i] == ([x] + Reverse(s))[i];
  }

  /** `list.reduce((prev, next) => createElement(next, prev), init)`: each entry wraps what the earlier ones built. */
  function Reduce(layers: seq<Layer>, init: Tree): Tree
    decreases |layers|
  {
    if layers == [] then init else Reduce(layers[1..], Element(layers[0], init))
  }

  /** The layers of a tree from the outside in. */
  function Layers(t: Tree): seq<Layer> {
    match t
    case Leaf(_) => []
    case Element(l, c) => [l] + Layers(c)
  }

  /** The innermost node of a tree. */
  function Core(t: Tree): Leaf {
    match t
    case Leaf(x) => x
    case Element(_, c) => Core(c)
  }

  /** Reducing puts the last entry outermost: the layers read from the outside are the list reversed. */
  lemma {:induction false} ReduceNests(layers: seq<Layer>, init: Tree)
    ensures Layers(Reduce(layers, init)) == Reverse(layers) + Layers(init)
    ensures Core(Reduce(layers, init)) == Core(init)
    decreases |layers|
  {
    if layers != [] {
      ReduceNests(layers[1..], Element(layers[0], init));
      assert Reverse(layers[1..]) + [layers[0]] + Layers(init) == Reverse(layers[1..]) + ([layers[0]] + Layers(init));
    }
  }

  function Middlewares(components: seq<Component>): (r: seq<Layer>)
    ensures |r| == |components|
    ensures forall i :: 0 <= i < |r| ==> r[i] == MiddlewareLayer(components[i])
  {
    seq(|components|, i requires 0 <= i < |components| => MiddlewareLayer(components[i]))
  }

  /** The handler's list on a match, before `reverse()`: global, router and route middlewares, Suspense for a lazy component outside eager mode, then the controller. */
  function Chain(props: ProviderProps, routeMiddlewares: seq<Component>, component: Cached, eager: bool): seq<Layer> {
    Middlewares(props.globalMiddlewares.GetOr([]))
      + Middlewares(props.routerMiddlewares.GetOr([]))
      + Middlewares(routeMiddlewares)
      + (if !eager && component.isLazy then [SuspenseLayer(props.fallback)] else [])
      + [ControllerLayer(component.view)]
  }

  /** The component the lazy loader resolves to: `[...middlewares, component].reverse().reduce(..., <Fragment/>)`. */
  function LazyModule(stored: seq<Component>, cls: ClassRef): (t: Tree)
    ensures Layers(t) == Middlewares(stored) + [ControllerLayer(RenderView(cls))]
    ensures Core(t) == FragmentLeaf
  {
    var chain := Middlewares(stored) + [ControllerLayer(RenderView(cls))];
    ReduceNests(Reverse(chain), Leaf(FragmentLeaf));
    ReverseReverse(chain);
    Reduce(Reverse(chain), Leaf(FragmentLeaf))
  }

  /** The value the provider gives to the window context. */
  function ContextValue(nav: Navigation): Location {
    Location(nav.pathname, nav.hash, nav.query, nav.params, ProviderRedirect, ContextEffect, nav.metaId)
  }

  /** What `WindowProvider` returns: the handler's list, then the context provider, reduced around the node. */
  function Render(nav: Navigation): Tree {
    Reduce(nav.middlewares + [ProviderLayer(ContextValue(nav))], Leaf(nav.node))
  }

  /** The provider is the outermost layer, and the handler's list appears inside it in reverse. */
  lemma RenderNesting(nav: Navigation)
    ensures Layers(Render(nav)) == [ProviderLayer(ContextValue(nav))] + Reverse(nav.middlewares)
    ensures Core(Render(nav)) == nav.node
  {
    var ls := nav.middlewares + [ProviderLayer(ContextValue(nav))];
    ReduceNests(ls, Leaf(nav.node));
    ReverseSnoc(nav.middlewares, ProviderLayer(ContextValue(nav)));
  }

  /**
   * On a match the rendered nesting, from the outside in, is: provider,
   * global middlewares, router middlewares, route middlewares, Suspense
   * (lazy components outside eager mode), the controller; nothing is
   * inside the controller.
   */
  lemma MatchedNesting(nav: Navigation, props: ProviderProps, routeMiddlewares: seq<Component>, component: Cached, eager: bool)
    requires nav.middlewares == Reverse(Chain(props, routeMiddlewares, component, eager)) && nav.node == NullLeaf
    ensures Layers(Render(nav)) == [ProviderLayer(ContextValue(nav))] + Chain(props, routeMiddlewares, component, eager)
    ensures Core(Render(nav)) == NullLeaf
  {
    RenderNesting(nav);
    ReverseReverse(Chain(props, routeMiddlewares, component, eager));
  }

  /** Without a match the provider wraps the global middlewares, which wrap the children. */
  lemma UnmatchedNesting(nav: Navigation, props: ProviderProps)
    requires nav.middlewares == Reverse(Middlewares(props.globalMiddlewares.GetOr([]))) && nav.node == ChildrenLeaf
    ensures Layers(Render(nav)) == [ProviderLayer(ContextValue(nav))] + Middlewares(props.globalMiddlewares.GetOr([]))
    ensures Core(Render(nav)) == ChildrenLeaf
  {
    RenderNesting(nav);
    ReverseReverse(Middlewares(props.globalMiddlewares.GetOr([])));
  }

  // ---------------------------------------------------------------------
  // The context
  // ---------------------------------------------------------------------

  class WindowContext {
    var baseURL: string
    var eager: bool
    var router: map<string, RouteData>
    var routes: set<Remover>
    var nextRemover: nat
    var controllerCaches: map<string, Cached>
    var controllerMiddlewares: map<string, seq<Component>>
    var controllerMetadatas: map<ClassRef, ControllerMetadata>
    var controllerMaps: map<string, ClassRef>
    var history: seq<HistoryEntry>
    var events: nat

    /**
     * The base URL is a nonempty string ending in `/`; every remover was
     * made before; no cached component carries the `isLazy` flag (the flag
     * is set on the lazy module's export, which is never cached).
     */
    ghost predicate Valid()
      reads this
    {
      baseURL != [] && EndsWith(baseURL, "/")
      && (forall r :: r in routes ==> r.id < nextRemover)
      && (forall e :: e in controllerCaches ==> !controllerCaches[e].isLazy)
    }

    ghost function St(): State
      reads this
    {
      State(baseURL, eager, router, routes, nextRemover, controllerCaches, controllerMiddlewares,
        controllerMetadatas, controllerMaps, history, events)
    }

    constructor()
      ensures Valid()
      ensures baseURL == "/" && !eager
      ensures router == map[] && routes == {} && controllerCaches == map[] && controllerMiddlewares == map[]
      ensures controllerMetadatas == map[] && controllerMaps == map[] && history == [] && events == 0
    {
      baseURL, eager := "/", false;
      router, routes, nextRemover := map[], {}, 0;
      controllerCaches, controllerMiddlewares := map[], map[];
      controllerMetadatas, controllerMaps := map[], map[];
      history, events := [], 0;
    }

    /** `setWindowBaseURL(baseURL = '/')`: rejects an empty value or one without a final `/`; otherwise sets the base URL and nothing else. */
    method SetBaseURL(value: Option<string>) returns (r: Result<(), string>)
      requires Valid()
      modifies this
      ensures Valid()
      ensures r.Success? <==> value.GetOr("/") != [] && EndsWith(value.GetOr("/"), "/")
      ensures r.Failure? ==> r.error == BASE_URL_ERROR && St() == old(St())
      ensures r.Success? ==> St() == old(St()).(baseURL := value.GetOr("/"))
    {
      var v := value.GetOr("/");
      if v == [] || !EndsWith(v, "/") {
        return Failure(BASE_URL_ERROR);
      }
      baseURL := v;
      return Success(());
    }

    /** `setWindowEager` */
    method SetEager(value: bool)
      requires Valid()
      modifies this
      ensures Valid()
      ensures St() == old(St()).(eager := value)
    {
      eager := value;
    }

    /** `getWindowEager` */
    function GetEager(): bool
      reads this
    {
      eager
    }

    /** `getWindowLocationPathname` against the current base URL. */
    function LocationPathname(pathname: string): (r: Result<string, string>)
      reads this
      ensures r.Success? <==> StartsWith(pathname, baseURL)
      ensures r.Failure? ==> r.error == PathnameError(baseURL)
      ensures r.Success? ==> StartsWith(r.value, "/")
    {
      StripBase(baseURL, pathname)
    }

    /** `addControllerMetadata`: both directions are recorded. */
    method AddControllerMetadata(cls: ClassRef, data: ControllerMetadata)
      requires Valid()
      modifies this
      ensures Valid()
      ensures St() == old(St()).(controllerMetadatas := old(controllerMetadatas)[cls := data],
                                 controllerMaps := old(controllerMaps)[data.metaId := cls])
      ensures GetControllerMetadata(cls) == Some(data) && GetControllerMetadataByExpression(data.metaId) == Some(cls)
    {
      controllerMetadatas := controllerMetadatas[cls := data];
      controllerMaps := controllerMaps[data.metaId := cls];
    }

    /** `getControllerMetadata`: `None` (undefined) for a class never registered. */
    function GetControllerMetadata(cls: ClassRef): (r: Option<ControllerMetadata>)
      reads this
      ensures r.Some? <==> cls in controllerMetadatas
      ensures r.Some? ==> r.value == controllerMetadatas[cls]
    {
      if cls in controllerMetadatas then Some(controllerMetadatas[cls]) else None
    }

    /** `getControllerMetadataByExpression`: `None` (undefined) for an unknown expression. */
    function GetControllerMetadataByExpression(expression: string): (r: Option<ClassRef>)
      reads this
      ensures r.Some? <==> expression in controllerMaps
      ensures r.Some? ==> r.value == controllerMaps[expression]
    {
      if expression in controllerMaps then Some(controllerMaps[expression]) else None
    }

    /** `addRoute`: registers the path and adds one new remover to the route set. */
    method AddRoute(path: string, payload: ClassRef) returns (remove: Remover)
      requires Valid()
      modifies this
      ensures Valid()
      ensures remove.path == path && remove !in old(routes)
      ensures St() == old(St()).(router := old(router)[path := RouteData(payload, path)],
                                 routes := old(routes) + {remove}, nextRemover := nextRemover)
    {
      router := router[path := RouteData(payload, path)];
      remove := Remover(nextRemover, path);
      nextRemover := nextRemover + 1;
      routes := routes + {remove};
    }

    /** Calling a remover: its path leaves the router and the remover leaves the route set; calling it again changes the set no further. */
    method RemoveRoute(remove: Remover)
      requires Valid()
      modifies this
      ensures Valid()
      ensures remove !in routes
      ensures remove !in old(routes) ==> routes == old(routes)
      ensures St() == old(St()).(router := old(router) - {remove.path}, routes := old(routes) - {remove})
    {
      router := router - {remove.path};
      routes := routes - {remove};
    }

    /**
     * `redirect(url, type = PUSH)`: nothing happens for an undefined or
     * empty URL; otherwise the rewritten URL is pushed (PUSH) or replaces
     * the current entry (any other type), and one `location` event is
     * emitted.
     */
    method Redirect(url: Option<string>, kind: Option<PopState>)
      requires Valid()
      modifies this
      ensures Valid()
      ensures (url.None? || url.value == []) ==> St() == old(St())
      ensures url.Some? && url.value != [] ==>
        var target := RedirectTarget(baseURL, url.value);
        var entry := if kind.GetOr(Push) == Push then Pushed(target) else Replaced(target);
        St() == old(St()).(history := old(history) + [entry], events := old(events) + 1)
    {
      if url.Some? && url.value != [] {
        var target := RedirectTarget(baseURL, url.value);
        if kind.GetOr(Push) == Push {
          history := history + [Pushed(target)];
        } else {
          history := history + [Replaced(target)];
        }
        events := events + 1;
      }
    }

    /**
     * `if (!controllerCaches.has(expression)) { ... }`: in eager mode the
     * controller's render closure is cached with the middleware list read
     * from its metadata store; otherwise the `lazy` wrapper of the loader
     * is cached.
     */
    method Populate(registry: Registry, data: RouteData)
      requires Valid() && registry.Valid()
      modifies this, registry
      ensures Valid() && registry.Valid()
      ensures registry.KeepsMetas()
      ensures data.expression !in old(controllerCaches) && eager ==> registry.Defines(data.payload)
      ensures data.expression in old(controllerCaches) || !eager ==> registry.metas == old(registry.metas)
      ensures forall d :: registry.StoreOf(d) == old(registry.StoreOf(d))
      ensures var e := data.expression;
        e in old(controllerCaches) ==> St() == old(St())
      ensures var e := data.expression;
        e !in old(controllerCaches) && eager ==>
          St() == old(St()).(
            controllerCaches := old(controllerCaches)[e := Cached(RenderView(data.payload), false)],
            controllerMiddlewares := old(controllerMiddlewares)[e := StoredMiddlewares(old(registry.StoreOf(data.payload)))])
      ensures var e := data.expression;
        e !in old(controllerCaches) && !eager ==>
          St() == old(St()).(controllerCaches := old(controllerCaches)[e := Cached(LazyView(data.payload), false)])
    {
      var e := data.expression;
      if e !in controllerCaches {
        if eager {
          var _ := CacheController(registry, e, data.payload);
        } else {
          controllerCaches := controllerCaches[e := Cached(LazyView(data.payload), false)];
        }
      }
    }

    /** The handler's list on a match: pushed in `Chain` order, then reversed in place. */
    static method Arrange(props: ProviderProps, routeMiddlewares: seq<Component>, component: Cached, eager: bool)
      returns (middlewares: seq<Layer>)
      ensures middlewares == Reverse(Chain(props, routeMiddlewares, component, eager))
      ensures !component.isLazy ==> forall l :: l in middlewares ==> !l.SuspenseLayer?
    {
      middlewares := Middlewares(props.globalMiddlewares.GetOr([]))
        + Middlewares(props.routerMiddlewares.GetOr([]))
        + Middlewares(routeMiddlewares);
      if !eager && component.isLazy {
        middlewares := middlewares + [SuspenseLayer(props.fallback)];
      }
      middlewares := middlewares + [ControllerLayer(component.view)];
      ghost var pushed := middlewares;
      middlewares := Reverse(middlewares);
      assert forall l :: l in middlewares ==> l in pushed;
    }

    /** The handler's matched branch: the route is cached when it has no entry, then its list is arranged. */
    method Visit(registry: Registry, props: ProviderProps, data: RouteData) returns (middlewares: seq<Layer>)
      requires Valid() && registry.Valid()
      modifies this, registry
      ensures Valid() && registry.Valid() && registry.KeepsMetas()
      ensures forall d :: registry.StoreOf(d) == old(registry.StoreOf(d))
      ensures data.expression !in old(controllerCaches) && eager ==> registry.Defines(data.payload)
      ensures data.expression in old(controllerCaches) || !eager ==> registry.metas == old(registry.metas)
      ensures var e := data.expression;
        e in old(controllerCaches) ==> St() == old(St())
      ensures var e := data.expression;
        e !in old(controllerCaches) ==>
          St() == old(St()).(
            controllerCaches := old(controllerCaches)[e := Cached(if eager then RenderView(data.payload) else LazyView(data.payload), false)],
            controllerMiddlewares := if eager
              then old(controllerMiddlewares)[e := StoredMiddlewares(old(registry.StoreOf(data.payload)))]
              else old(controllerMiddlewares))
      ensures var e := data.expression;
        e in controllerCaches
        && middlewares == Reverse(Chain(props, if e in controllerMiddlewares then controllerMiddlewares[e] else [], controllerCaches[e], eager))
      ensures forall l :: l in middlewares ==> !l.SuspenseLayer?
    {
      var e := data.expression;
      Populate(registry, data);
      var routeMiddlewares := if e in controllerMiddlewares then controllerMiddlewares[e] else [];
      middlewares := Arrange(props, routeMiddlewares, controllerCaches[e], eager);
    }

    /**
     * The navigation handler. `find` is the router lookup at the time of
     * the call. An unmatched path touches no cache; a matched one caches
     * its expression when it had no entry, and the handler's list holds
     * the middlewares and the cached component as `Chain` orders them,
     * reversed.
     */
    method Handle(registry: Registry, props: ProviderProps, browser: BrowserLocation, find: string -> Option<RouteMatch>)
      returns (r: Result<Navigation, string>)
      requires Valid() && registry.Valid()
      requires forall p :: find(p).Some? ==> find(p).value.data.expression in router && router[find(p).value.data.expression] == find(p).value.data
      modifies this, registry
      ensures Valid() && registry.Valid() && registry.KeepsMetas()
      ensures forall d :: registry.StoreOf(d) == old(registry.StoreOf(d))
      ensures r.Success? <==> StartsWith(browser.pathname, baseURL)
      ensures r.Failure? ==> r.error == PathnameError(baseURL) && St() == old(St())
      ensures r.Success? && find(r.value.pathname).None? ==>
        St() == old(St())
        && r.value == Navigation(StripBase(baseURL, browser.pathname).value, browser.hash, browser.query, map[],
             Reverse(Middlewares(props.globalMiddlewares.GetOr([]))), ChildrenLeaf, None)
      ensures r.Success? && find(r.value.pathname).Some? ==>
        var m := find(r.value.pathname).value;
        var e := m.data.expression;
        e in controllerCaches
        && (e in old(controllerCaches) ==> St() == old(St()))
        && r.value == Navigation(StripBase(baseURL, browser.pathname).value, browser.hash, browser.query,
             m.params.GetOr(map[]),
             Reverse(Chain(props, if e in controllerMiddlewares then controllerMiddlewares[e] else [], controllerCaches[e], eager)),
             NullLeaf, Some(e))
      ensures r.Success? && find(r.value.pathname).Some? && find(r.value.pathname).value.data.expression !in old(controllerCaches) ==>
        var data := find(r.value.pathname).value.data;
        St() == old(St()).(
          controllerCaches := old(controllerCaches)[data.expression :=
            Cached(if eager then RenderView(data.payload) else LazyView(data.payload), false)],
          controllerMiddlewares := if eager
            then old(controllerMiddlewares)[data.expression := StoredMiddlewares(old(registry.StoreOf(data.payload)))]
            else old(controllerMiddlewares))
      ensures r.Success? && find(r.value.pathname).Some? && find(r.value.pathname).value.data.expression !in old(controllerCaches) && eager ==>
        registry.Defines(find(r.value.pathname).value.data.payload)
      ensures !(r.Success? && find(r.value.pathname).Some? && find(r.value.pathname).value.data.expression !in old(controllerCaches) && eager) ==>
        registry.metas == old(registry.metas)
      ensures forall l :: r.Success? && l in r.value.middlewares ==> !l.SuspenseLayer?
    {
      var stripped := StripBase(baseURL, browser.pathname);
      if stripped.Failure? {
        return Failure(stripped.error);
      }
      var pathname := stripped.value;
      var matched := find(pathname);
      var params := if matched.Some? then matched.value.params.GetOr(map[]) else map[];
      var middlewares: seq<Layer>;
      var node: Leaf;
      var expression: Option<string> := None;
      if matched.Some? {
        expression := Some(matched.value.data.expression);
        middlewares := Visit(registry, props, matched.value.data);
        node := NullLeaf;
      } else {
        middlewares := Reverse(Middlewares(props.globalMiddlewares.GetOr([])));
        node := ChildrenLeaf;
      }
      r := Success(Navigation(pathname, browser.hash, browser.query, params, middlewares, node, expression));
    }

    /**
     * The loader inside the `lazy` wrapper, once the controller class has
     * loaded: the route's middleware list and render closure replace the
     * wrapper in the caches, and the loader resolves to `LazyModule`.
     */
    method ResolveLazy(registry: Registry, expression: string, cls: ClassRef) returns (module_: Tree)
      requires Valid() && registry.Valid()
      modifies this, registry
      ensures Valid() && registry.Valid()
      ensures registry.KeepsMetas() && registry.Defines(cls)
      ensures forall d :: registry.StoreOf(d) == old(registry.StoreOf(d))
      ensures var stored := StoredMiddlewares(old(registry.StoreOf(cls)));
        module_ == LazyModule(stored, cls)
        && St() == old(St()).(
             controllerMiddlewares := old(controllerMiddlewares)[expression := stored],
             controllerCaches := old(controllerCaches)[expression := Cached(RenderView(cls), false)])
    {
      var stored := CacheController(registry, expression, cls);
      module_ := LazyModule(stored, cls);
    }

    /**
     * `Meta.get(controller)`, the middleware list read from its store, and
     * `new controller()[_render]()`: the list and the render closure are
     * cached under the expression.
     */
    method CacheController(registry: Registry, expression: string, cls: ClassRef) returns (stored: seq<Component>)
      requires Valid() && registry.Valid()
      modifies this, registry
      ensures Valid() && registry.Valid()
      ensures registry.KeepsMetas() && registry.Defines(cls)
      ensures forall d :: registry.StoreOf(d) == old(registry.StoreOf(d))
      ensures stored == StoredMiddlewares(old(registry.StoreOf(cls)))
      ensures St() == old(St()).(
        controllerMiddlewares := old(controllerMiddlewares)[expression := stored],
        controllerCaches := old(controllerCaches)[expression := Cached(RenderView(cls), false)])
    {
      var meta := registry.Get(cls);
      stored := StoredMiddlewares(meta.Contents());
      controllerMiddlewares := controllerMiddlewares[expression := stored];
      controllerCaches := controllerCaches[expression := Cached(RenderView(cls), false)];
    }
  }
}
