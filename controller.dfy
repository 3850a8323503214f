/**
 * The controller base class (packages/react/src/controller.ts): the
 * `Middleware` class decorator, which appends components to the list
 * kept under the `middleware` symbol, and the render closure, which copies
 * the current location into the instance before calling `render()`.
 */
module Controllers {
  import opened Wrappers
  import opened Metadata

  /** The `_middleware` symbol. */
  const MIDDLEWARE_KEY: Key := Sym("middleware")

  /** A function held by the location context, identified by where it comes from. */
  datatype Callback = Noop | ProviderRedirect | ContextEffect

  /** What `useLocation()` returns: the value of the window context. */
  datatype Location = Location(
    pathname: string,
    hash: Option<string>,
    query: map<string, string>,
    params: map<string, string>,
    redirect: Callback,
    useEffect: Callback,
    metaId: Option<string>)

  /** The fields a controller's `render()` can read. */
  datatype Fields = Fields(
    pathname: Option<string>,
    hash: Option<string>,
    query: map<string, string>,
    params: map<string, string>,
    redirect: Callback,
    useEffect: Callback)

  /** `[...(value ?? []), ...middlewares]` */
  function Combine(previous: Value, middlewares: seq<Component>): (r: Value)
    ensures r.ComponentList?
    ensures previous.ComponentList? ==> r.items == previous.items + middlewares
    ensures !previous.ComponentList? ==> r.items == middlewares
  {
    match previous
    case ComponentList(items) => ComponentList(items + middlewares)
    case _ => ComponentList(middlewares)
  }

  /** The callback of the decorator `Controller.Middleware(...middlewares)`. */
  function MiddlewareCallback(middlewares: seq<Component>): Value -> Value {
    v => Combine(v, middlewares)
  }

  /** The callbacks of several `Middleware` decorators, in the order they are applied. */
  function MiddlewareCallbacks(lists: seq<seq<Component>>): (fs: seq<Value -> Value>)
    ensures |fs| == |lists|
    ensures forall i :: 0 <= i < |lists| ==> fs[i] == MiddlewareCallback(lists[i])
  {
    seq(|lists|, i requires 0 <= i < |lists| => MiddlewareCallback(lists[i]))
  }

  function Flatten(lists: seq<seq<Component>>): seq<Component>
    decreases |lists|
  {
    if lists == [] then [] else lists[0] + Flatten(lists[1..])
  }

  /**
   * Applying `Middleware` decorators in turn appends their arguments in
   * order to what is already stored; nothing earlier is dropped or
   * replaced.
   */
  lemma {:induction false} MiddlewaresAppend(prefix: seq<Component>, lists: seq<seq<Component>>)
    requires lists != []
    ensures Fold(ComponentList(prefix), MiddlewareCallbacks(lists)) == ComponentList(prefix + Flatten(lists))
    decreases |lists|
  {
    var fs := MiddlewareCallbacks(lists);
    assert fs[1..] == MiddlewareCallbacks(lists[1..]);
    if |lists| == 1 {
      assert Flatten(lists) == lists[0] + [];
      assert lists[0] + [] == lists[0];
    } else {
      MiddlewaresAppend(prefix + lists[0], lists[1..]);
      assert prefix + lists[0] + Flatten(lists[1..]) == prefix + (lists[0] + Flatten(lists[1..]));
    }
  }

  /**
   * On a class with no middleware yet, the stored list is the
   * concatenation of the decorators' arguments in application order.
   */
  lemma MiddlewaresOnFreshClass(s: Store, lists: seq<seq<Component>>)
    requires MIDDLEWARE_KEY !in s.clazz && lists != []
    ensures Lookup(ApplyClassAll(s, MIDDLEWARE_KEY, MiddlewareCallbacks(lists)).clazz, MIDDLEWARE_KEY) == ComponentList(Flatten(lists))
  {
    var fs := MiddlewareCallbacks(lists);
    ClassFold(s, MIDDLEWARE_KEY, fs);
    assert fs == [fs[0]] + fs[1..];
    assert Fold(Undefined, fs) == Fold(ComponentList(lists[0]), fs[1..]);
    if |lists| > 1 {
      assert fs[1..] == MiddlewareCallbacks(lists[1..]);
      MiddlewaresAppend(lists[0], lists[1..]);
    } else {
      assert lists[0] + [] == lists[0];
    }
  }

  /** The component list a store holds under the middleware symbol: `meta.clazz.get(_middleware) ?? []`. */
  function StoredMiddlewares(s: Store): (r: seq<Component>)
    ensures Lookup(s.clazz, MIDDLEWARE_KEY).ComponentList? ==> r == Lookup(s.clazz, MIDDLEWARE_KEY).items
    ensures MIDDLEWARE_KEY !in s.clazz ==> r == []
  {
    match Lookup(s.clazz, MIDDLEWARE_KEY)
    case ComponentList(items) => items
    case _ => []
  }

  /** Two callbacks that agree on the previous value have the same effect. */
  lemma SameCallbackValue(s: Store, id: Key, f: Value -> Value, g: Value -> Value)
    requires f(Lookup(s.clazz, id)) == g(Lookup(s.clazz, id))
    ensures ApplyClass(s, id, f) == ApplyClass(s, id, g)
  {
  }

  /** One `Middleware` decoration appends its components to the stored list. */
  lemma MiddlewareStored(s: Store, middlewares: seq<Component>)
    ensures StoredMiddlewares(ApplyClass(s, MIDDLEWARE_KEY, MiddlewareCallback(middlewares))) == StoredMiddlewares(s) + middlewares
  {
  }

  /**
   * `@Controller.Middleware(...middlewares)` on class `cls`. The list lands
   * in the store `cls` reads (its own, or an ancestor's when it defines
   * none); every class reading that store sees it, and nothing else in the
   * store changes.
   */
  method Middleware(registry: Registry, cls: ClassRef, middlewares: seq<Component>)
    requires registry.Valid()
    modifies registry, registry.metas.Values
    ensures registry.Valid() && registry.KeepsMetas()
    ensures registry.Owner(cls) == Some(old(registry.Owner(cls)).GetOr(cls))
    ensures registry.metas.Keys == old(registry.metas.Keys) + {registry.Owner(cls).value}
    ensures registry.StoreOf(cls) == ApplyClass(old(registry.StoreOf(cls)), MIDDLEWARE_KEY, MiddlewareCallback(middlewares))
    ensures StoredMiddlewares(registry.StoreOf(cls)) == StoredMiddlewares(old(registry.StoreOf(cls))) + middlewares
    ensures forall d :: registry.Owner(d) == registry.Owner(cls) ==> registry.StoreOf(d) == registry.StoreOf(cls)
    ensures forall d :: registry.Owner(d) != registry.Owner(cls) ==> registry.StoreOf(d) == old(registry.StoreOf(d))
  {
    ghost var before := registry.StoreOf(cls);
    var callback := (target, value) => Combine(value, middlewares);
    registry.DecorateClass(cls, MIDDLEWARE_KEY, callback);
    SameCallbackValue(before, MIDDLEWARE_KEY, v => callback(cls, v), MiddlewareCallback(middlewares));
    MiddlewareStored(before, middlewares);
  }

  /**
   * Two `@Controller.Middleware` decorators on one class, the one written
   * nearer the class applied first: both lists land, in that order.
   */
  method StackedMiddleware(registry: Registry, cls: ClassRef, first: seq<Component>, second: seq<Component>)
    requires registry.Valid()
    modifies registry, registry.metas.Values
    ensures registry.Valid() && registry.KeepsMetas() && registry.Defines(cls)
    ensures StoredMiddlewares(registry.StoreOf(cls)) == StoredMiddlewares(old(registry.StoreOf(cls))) + first + second
  {
    Middleware(registry, cls, first);
    Middleware(registry, cls, second);
  }

  /**
   * `@Controller.Middleware` on a parent class reaches a subclass that
   * defines no metadata of its own.
   */
  method MiddlewareReachesSubclass(registry: Registry, parent: ClassRef, child: ClassRef, middlewares: seq<Component>)
    requires registry.Valid()
    requires child in registry.ancestors && registry.ancestors[child] != [] && registry.ancestors[child][0] == parent
    requires child !in registry.metas
    modifies registry, registry.metas.Values
    ensures registry.Owner(child) == registry.Owner(parent)
    ensures StoredMiddlewares(registry.StoreOf(child)) == StoredMiddlewares(old(registry.StoreOf(parent))) + middlewares
  {
    Middleware(registry, parent, middlewares);
    assert ChainOf(registry.ancestors, child)[1] == parent;
    assert child != parent by {
      assert ChainOf(registry.ancestors, parent) == ChainOf(registry.ancestors, child)[1..];
    }
    ReadsParent(registry.ancestors, registry.metas.Keys, child);
  }

  /** An instance of a controller class. */
  class Controller {
    var pathname: Option<string>
    var hash: Option<string>
    var query: map<string, string>
    var params: map<string, string>
    var redirect: Callback
    var useEffect: Callback

    /** Before any render the records are empty and both callbacks do nothing. */
    constructor()
      ensures pathname == None && hash == None && query == map[] && params == map[]
      ensures redirect == Noop && useEffect == Noop
    {
      pathname, hash, query, params := None, None, map[], map[];
      redirect, useEffect := Noop, Noop;
    }

    function Current(): Fields
      reads this
    {
      Fields(pathname, hash, query, params, redirect, useEffect)
    }

    /**
     * The closure returned by `[_render]()`: the six fields take the
     * location's values, then `render()` (here `view`) runs on them.
     */
    method RenderWith<Node>(location: Location, view: Fields -> Node) returns (node: Node)
      modifies this
      ensures Current() == Fields(Some(location.pathname), location.hash, location.query, location.params, location.redirect, location.useEffect)
      ensures node == view(Current())
    {
      pathname := Some(location.pathname);
      hash := location.hash;
      query := location.query;
      params := location.params;
      redirect := location.redirect;
      useEffect := location.useEffect;
      node := view(Current());
    }
  }
}
