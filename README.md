# zille core, modelled in Dafny

zille is a small React framework built from four parts:

- **Controller classes** are routed by file name.
- **Class metadata** is written by decorators.
- **A request layer** sends failed requests to per-status error pages.
- **A Vite plugin** writes the route-registration code into the app's entry module.

The repository also holds a release script. It bumps the patch versions of a chosen set of workspace packages, together with every package that depends on them.

This project models those parts and proves properties about them. One module per source file:

- `vite_code.dfy` (`ViteCode`) models the code generator.
  - It covers the option defaults.
  - It covers the expression that maps a controller file such as `./controllers/user/[id]/index.controller.tsx` to a route such as `/user/:id`.
  - That mapping is proved correct against a reference definition of file paths as segment lists.
- `vite_plugin.dfy` (`VitePlugin`) models the plugin. It is created once, and its `transform` prepends the generated code to the entry module only.
- `meta.dfy` (`Metadata`) models the per-class metadata store.
  - Each store has four scopes: class, property, method and parameter.
  - Each decorator factory reads the previous value under an id, passes it to a callback, and stores the result.
  - The `Reflect` registry holds the store each class defines for itself. A lookup follows the prototype chain, so a subclass without a store of its own reads and decorates its nearest ancestor's store.
- `controller.dfy` (`Controllers`) models the controller base class.
  - `Middleware` appends to the middleware list in the store the class reads.
  - The render closure copies the current location into the instance.
- `window.dfy` (`Window`) models the process-wide window context:
  - the base URL and the eager flag;
  - the route table with its removers;
  - the per-route component caches;
  - `redirect`;
  - the navigation handler, which turns the browser pathname into the nesting of components the provider renders.
- `exception.dfy` (`Exceptions`), `fetcher.dfy` (`Fetchers`) and `request.dfy` (`RequestHooks`) model the request package:
  - the `Exception` type;
  - the `Fetcher` HTTP client, with its configuration, status check and error normalisation;
  - the listener registry, the `RequestProvider` and `useSubmit`.
- `deps.dfy` (`Deps`) models the release script:
  - reading the manifests;
  - closing the choice under dependants, with a `Set` iterator that also visits elements added during the walk;
  - bumping the patch versions.
- `wrappers.dfy` and `strings.dfy` hold `Option`/`Result` and JavaScript's `startsWith`, `endsWith` and `slice`.

Objects that the source updates in place are Dafny classes whose methods state the whole new state:

- `Metadata.Meta` and `Metadata.Registry`;
- `Controllers.Controller`;
- `Window.WindowContext`;
- `RequestHooks.Listeners`, `RequestHooks.Provider` and `RequestHooks.SubmitHook`.

Loops become methods with loop invariants:

- `Deps.LoadPackages` and `Deps.BumpRelatives` are proved against the functions `Deps.Load` and `Deps.Bumped`, which specify them.
- `Deps.AddDependants`, `Deps.Doit` and `Deps.Relatives` are proved against the predicates `Deps.Closed`, `Deps.Justified` and `Deps.Depends`, which say what the closure of the choice is.

Pure code becomes functions and lemmas.

Dependencies outside the model are passed in as parameters or left out:

- the rou3 router (an abstract lookup `find`);
- `fetch` (a function from URL and configuration to an outcome);
- the browser location (a `BrowserLocation` value);
- the prompts of the release script (the `selection` and `ok` parameters).

## Model

| member | source | states |
|---|---|---|
| ViteCode.MakeInjectionCode | packages/vite/src/code.ts:14-32 | only an omitted option takes its default (`controllers`, `.controller.tsx`, not eager); the glob's `eager` literal and the `setWindowEager` literal are the same `"true"`/`"false"`; the cut prefix is `./` + directory and the cut suffix is the glob suffix |
| ViteCode.DeriveUrl | packages/vite/src/code.ts:28 | the URL a file is registered under is never empty (`\|\| '/'`) |
| ViteCode.RewriteSegments | packages/vite/src/code.ts:29 | the two global replaces turn every `[...x]` segment into `**:x` and every `[x]` segment into `:x`, and leave static segments unchanged, for any well-formed segment list |
| ViteCode.ReplaceGroups | packages/vite/src/code.ts:29 | one global regex replace, scanning left to right without overlap; its effect on segment paths is stated by `ViteCode.RewriteSegments` |
| ViteCode.DeriveRoute | packages/vite/src/code.ts:28-29 | the route a discovered file is registered under; `ViteCode.DeriveRouteCorrect` states it equals the expected route of the file's segments |
| ViteCode.DeriveUrlCorrect | packages/vite/src/code.ts:28 | cutting the directory prefix and the suffix from a discovered file recovers its segment path, with a final `index` segment dropped and `/` for the root |
| ViteCode.DeriveRouteCorrect | packages/vite/src/code.ts:28-29 | the route expression of a discovered file is its segments with parameters written `:x`, catch-alls `**:x`, and without a final `index` |
| ViteCode.RootIndexIsSlash | packages/vite/src/code.ts:28-29 | `<directory>/index<suffix>` is registered as `/` |
| ViteCode.EmptySuffixCollapses | packages/vite/src/code.ts:28 | with an empty suffix, `slice(n, -0)` is empty, so every file is registered as `/` |
| VitePlugin.CreatePlugin | packages/vite/src/index.ts:10-13 | the plugin is named `vite-plugin-zille`; the entry defaults to `src/main.tsx` only when omitted; the generator receives the other three options unchanged |
| VitePlugin.Transform | packages/vite/src/index.ts:14-21 | the module is rewritten if and only if its normalised id ends with the entry, and then it is the generated code followed by the original code |
| VitePlugin.NormalizeId | packages/vite/src/index.ts:15 | `id.replace(/\\\\/g, '/')`, each pair of backslashes read left to right becoming one `/`; its properties are stated by `VitePlugin.NormalizeIdentity`, `VitePlugin.NormalizedHasNoPair` and `VitePlugin.DoubledSeparatorsNormalize` |
| VitePlugin.NormalizeIdentity | packages/vite/src/index.ts:15 | an id without backslashes is left as it is |
| VitePlugin.NormalizedHasNoPair | packages/vite/src/index.ts:15 | after normalisation no two backslashes are adjacent, and a leading backslash comes from a lone one |
| VitePlugin.DoubledSeparatorsNormalize | packages/vite/src/index.ts:15 | a Windows id written with doubled backslashes normalises to the same id written with `/` |
| VitePlugin.TransformIgnoresDoubledSeparators | packages/vite/src/index.ts:14-21 | the entry is recognised equally in its `/` form and its doubled-backslash form |
| Metadata.Lookup | packages/react/src/meta.ts:47 | a key never set reads as `undefined` |
| Metadata.ApplyClass | packages/react/src/meta.ts:45-49 | the class scope's `id` becomes the callback of its previous value (`undefined` when absent); every other key and every other scope is unchanged |
| Metadata.ApplyMember | packages/react/src/meta.ts:85-91 | the per-name table is created when missing; only key `id` of it is overwritten, with the callback of its previous value; other names are unchanged |
| Metadata.ApplyProperty | packages/react/src/meta.ts:82-92 | a property decorator changes only the property scope, as `ApplyMember` says |
| Metadata.ApplyMethod | packages/react/src/meta.ts:134-144 | a method decorator changes only the method scope, as `ApplyMember` says |
| Metadata.ApplyParameter | packages/react/src/meta.ts:183-197 | a parameter decorator's change to a store; its whole effect is stated by `Metadata.ParameterEffect` |
| Metadata.Assign | packages/react/src/meta.ts:190-193 | writing index `i` of a JavaScript array grows it to `i + 1` if needed, fills new positions below `i` with holes, and changes no other index |
| Metadata.ParameterEffect | packages/react/src/meta.ts:183-197 | a parameter decorator creates the array and the table at `index` when missing, overwrites only key `id` of that table, and leaves every other index, name and scope unchanged |
| Metadata.ClassFold | packages/react/src/meta.ts:45-49 | class decorations under one id, applied in turn, fold their callbacks in application order and change nothing else |
| Metadata.FirstClassDecoration | packages/react/src/meta.ts:29-38 | the first decoration of a class passes `undefined` as the previous value |
| Metadata.ParametersIndependent | packages/react/src/meta.ts:189-196 | decorating one parameter position leaves the table of another position as it was |
| Metadata.Meta.RecordClass | packages/react/src/meta.ts:47-48 | the store's new contents are `ApplyClass` of its old contents |
| Metadata.Meta.RecordProperty | packages/react/src/meta.ts:85-91 | the store's new contents are `ApplyProperty` of its old contents |
| Metadata.Meta.RecordMethod | packages/react/src/meta.ts:137-143 | the store's new contents are `ApplyMethod` of its old contents |
| Metadata.Meta.RecordParameter | packages/react/src/meta.ts:186-196 | the store's new contents are `ApplyParameter` of its old contents |
| Metadata.Holder | packages/react/src/meta.ts:11-14 | a metadata lookup along a prototype chain finds a class on the chain that defines metadata, and finds nothing exactly when no class on the chain defines any |
| Metadata.HolderFirst | packages/react/src/meta.ts:11-14 | the class a lookup finds is the first one on the chain that defines metadata: no class before it defines any |
| Metadata.DefineKeepsLookups | packages/react/src/meta.ts:11-12 | defining a `Meta` on a class whose lookup found none leaves every other class's lookup as it was, except that a lookup that found nothing may now find that class |
| Metadata.ReadsParent | packages/react/src/meta.ts:11-14 | a class that defines no metadata of its own reads the metadata of the class it extends |
| Metadata.Registry.Get | packages/react/src/meta.ts:10-15 | when the lookup from a class finds a `Meta` on the class or an ancestor, that object is returned and nothing changes; otherwise an empty `Meta` is defined on the class itself; the returned contents are what the class read before; no class's view of its store changes; every `Meta` object stays where it was, and a newly defined one is fresh |
| Metadata.Registry.DecorateClass | packages/react/src/meta.ts:45-49 | the store the class reads (its own, or its nearest ancestor's; a new one on the class when neither exists) becomes `ApplyClass` of its old contents; every class that reads the same store sees the change; every class reading another store, or none, is unchanged; classes that define metadata keep distinct `Meta` objects; the class now reads a `Meta`, and the set of classes that define one grows by at most that class; every `Meta` object stays where it was, and a newly defined one is fresh |
| Metadata.Registry.DecorateProperty | packages/react/src/meta.ts:82-92 | the store that `target.constructor` reads becomes `ApplyProperty` of its old contents (for a static member this is the store of `Function`); every class reading that store sees the change; every class reading another store is unchanged; the class now reads a `Meta`, and the set of classes that define one grows by at most that class; every `Meta` object stays where it was, and a newly defined one is fresh |
| Metadata.Registry.DecorateMethod | packages/react/src/meta.ts:134-144 | the store that `target.constructor` reads becomes `ApplyMethod` of its old contents; every class reading that store sees the change; every class reading another store is unchanged; the class now reads a `Meta`, and the set of classes that define one grows by at most that class; every `Meta` object stays where it was, and a newly defined one is fresh |
| Metadata.Registry.DecorateParameter | packages/react/src/meta.ts:183-197 | the store that `target.constructor` reads becomes `ApplyParameter` of its old contents; every class reading that store sees the change; every class reading another store is unchanged; the class now reads a `Meta`, and the set of classes that define one grows by at most that class; every `Meta` object stays where it was, and a newly defined one is fresh |
| Controllers.Combine | packages/react/src/controller.ts:18-19 | the new list is the previous list followed by the decorator's components, or just those components when there was no list |
| Controllers.MiddlewaresAppend | packages/react/src/controller.ts:16-21 | `Middleware` decorators applied in turn append their arguments in application order; nothing stored earlier is dropped or reordered |
| Controllers.MiddlewaresOnFreshClass | packages/react/src/controller.ts:16-21 | on a class with no middleware yet, the stored list is the concatenation of the decorators' arguments |
| Controllers.StoredMiddlewares | packages/react/src/window.ts:196 | the middleware list read from a store is the list stored under the middleware symbol, and `[]` when the symbol is absent |
| Controllers.StackedMiddleware | packages/react/src/controller.ts:16-21 | two `Middleware` decorators on one class, made through the registry one after the other, leave both lists stored in the order they were applied |
| Controllers.MiddlewareReachesSubclass | packages/react/src/controller.ts:16-21 | `Middleware` on a parent class is seen by a subclass that defines no metadata of its own, which reads the same store |
| Controllers.Middleware | packages/react/src/controller.ts:16-21 | the class now reads a `Meta` (its own, an ancestor's, or a new one defined on it), and no other class gains one; the store it reads changes only under the middleware key, whose list grows by exactly the given components at its end; every class reading the same store (a parent and its undecorated subclasses) sees the new list; classes reading other stores are unchanged; every `Meta` object stays where it was, and a newly defined one is fresh |
| Controllers.Controller.constructor | packages/react/src/controller.ts:7-12 | before any render, pathname and hash are unset, query and params are empty, and both callbacks do nothing |
| Controllers.Controller.RenderWith | packages/react/src/controller.ts:23-34 | the six fields take the location's values before `render()` runs, and `render()` sees them |
| Window.StripBase | packages/react/src/window.ts:57-67 | reading the pathname succeeds if and only if it starts with the base URL, and otherwise fails with the base-URL error; the result is what follows the base, with a `/` put in front only when that part lacks one |
| Window.RedirectTarget | packages/react/src/window.ts:159-162 | the URL handed to the history always starts with the base URL; a URL already under the base is kept as it is; any other URL becomes the base followed by the URL minus at most one leading `/` |
| Window.RedirectRoundTrip | packages/react/src/window.ts:157-170 | redirecting outside the base and reading the pathname back gives the URL as an absolute path, unless the URL starts with two slashes |
| Window.RedirectRoundTripPath | packages/react/src/window.ts:157-170 | for a path starting with a single `/`, redirecting and reading back gives the path itself |
| Window.RedirectKeepsPrefixed | packages/react/src/window.ts:159 | a URL under the base is read back as if it had been opened directly |
| Window.ReduceNests | packages/react/src/window.ts:273 | reducing a component list with `createElement` nests it with the last entry outermost, around the initial node |
| Window.LazyModule | packages/react/src/window.ts:206-211 | the lazily loaded component renders the route's middlewares, outermost first, around the controller, around a fragment |
| Window.RenderNesting | packages/react/src/window.ts:263-273 | the context provider is the outermost element, and the handler's list appears inside it in reverse order, around the node |
| Window.MatchedNesting | packages/react/src/window.ts:220-233 | on a match, the rendered nesting from the outside in is: provider, global middlewares, router middlewares, route middlewares, a Suspense layer only for a cached component flagged lazy outside eager mode, controller, with nothing inside; no cached component carries that flag, so as the code stands the Suspense layer never appears (see `Window.WindowContext.Handle`) |
| Window.UnmatchedNesting | packages/react/src/window.ts:234-239 | without a match, the provider wraps the global middlewares, which wrap the children |
| Window.WindowContext.constructor | packages/react/src/window.ts:26-42 | the base URL is `/`, not eager, and every table, the history and the event count are empty |
| Window.WindowContext.SetBaseURL | packages/react/src/window.ts:82-87 | succeeds if and only if the value (default `/`) is non-empty and ends with `/`; on failure it gives the error and changes nothing; on success only the base URL changes |
| Window.WindowContext.SetEager | packages/react/src/window.ts:90-92 | only the eager flag changes |
| Window.WindowContext.GetEager | packages/react/src/window.ts:95-97 | the eager flag, which only `SetEager` changes |
| Window.WindowContext.LocationPathname | packages/react/src/window.ts:56-67 | reading the location succeeds if and only if the pathname starts with the base URL, fails with the base-URL error otherwise, and gives a path starting with `/` |
| Window.WindowContext.AddControllerMetadata | packages/react/src/window.ts:105-108 | the class maps to its metadata and the metadata's id maps back to the class, so both getters then find them; nothing else changes |
| Window.WindowContext.GetControllerMetadata | packages/react/src/window.ts:111-119 | a result exists if and only if the class was registered, and then it is the stored metadata |
| Window.WindowContext.GetControllerMetadataByExpression | packages/react/src/window.ts:122-126 | a result exists if and only if the expression was registered, and then it is the stored class |
| Window.WindowContext.AddRoute | packages/react/src/window.ts:129-140 | the path is routed to its payload with its own path as expression; the returned remover is new to the route set and is added to it; nothing else changes |
| Window.WindowContext.RemoveRoute | packages/react/src/window.ts:134-137 | the remover's path leaves the router and the remover leaves the route set; a second call changes the set no further |
| Window.WindowContext.Redirect | packages/react/src/window.ts:157-170 | an undefined or empty URL changes nothing; otherwise exactly one history entry is added (pushed by default or for PUSH, replaced otherwise) with the rewritten URL, and one `location` event is emitted |
| Window.WindowContext.Populate | packages/react/src/window.ts:190-218 | an expression already cached is left alone; otherwise eager mode caches the controller's render closure with the middleware list read from its class store, and lazy mode caches the `lazy` wrapper only; only the eager path defines a `Meta` on the controller class when its chain has none, old `Meta` objects stay, and no class's store changes |
| Window.WindowContext.CacheController | packages/react/src/window.ts:194-198 | the middleware list is the one stored on the class (`?? []`), and it and the render closure are cached under the expression; nothing else changes; the class now reads a `Meta`, defined on it when its chain had none; old `Meta` objects stay, and no class's store changes |
| Window.WindowContext.Arrange | packages/react/src/window.ts:220-232 | the handler's list is `Chain` reversed, and it holds no Suspense layer for a component without the lazy flag |
| Window.WindowContext.Visit | packages/react/src/window.ts:190-232 | the matched branch of the handler: the expression is cached only when it had none, the class store is defined on the controller class exactly when eager mode caches it, and the list is `Chain` of the caches reversed |
| Window.WindowContext.Handle | packages/react/src/window.ts:180-250 | for a lookup that only returns routes the router holds: fails if and only if the pathname is outside the base, and then changes nothing; without a match it changes nothing and renders the reversed global middlewares around the children; with a match the expression ends up cached, is cached only when it was missing, and the list is the reversed `Chain` of the cached component; the result never holds a Suspense layer; a `Meta` is defined on the matched controller class (when its chain had none) only on the eager path for an uncached expression, old `Meta` objects stay, and no class's store changes |
| Window.WindowContext.ResolveLazy | packages/react/src/window.ts:200-216 | once the class loads, the route's middleware list and render closure replace the lazy wrapper in the caches, and the loader resolves to `LazyModule` of them; the class now reads a `Meta`, defined on it when its chain had none; old `Meta` objects stay, and no class's store changes |
| Exceptions.NewException | packages/request/src/exception.ts:5-8 | the status is kept, and a missing message becomes the empty string |
| Fetchers.FallbackStatus | packages/request/src/fetcher.ts:55 | a truthy `code` wins, then a truthy `status`, and otherwise the status is 500 |
| Fetchers.Normalize | packages/request/src/fetcher.ts:52-56 | an `Exception` passes through unchanged; any other error becomes an `Exception` with the fallback status and its message |
| Fetchers.NormalizeIdempotent | packages/request/src/fetcher.ts:52-56 | normalising an already normalised error changes nothing |
| Fetchers.NormalizedStatusTruthy | packages/request/src/fetcher.ts:55 | a foreign error always ends with a truthy status |
| Fetchers.ConfigFor | packages/request/src/fetcher.ts:32-48 | credentials are always `include`; `post` and `put` carry the JSON body and `content-type: application/json` over the caller's other headers; `get` and `delete` have no body and exactly the caller's headers |
| Fetchers.Fetcher.CreateResponse | packages/request/src/fetcher.ts:13-29 | a status outside [200, 300) or a response not ok rejects with `Exception(status, statusText)`; otherwise the result is the JSON, passed through the handler when there is one, with the response headers |
| Fetchers.Fetcher.BuildConfig | packages/request/src/fetcher.ts:32-48 | the configuration object equals `ConfigFor` of the options |
| Fetchers.Fetcher.Request | packages/request/src/fetcher.ts:31-57 | `fetch` receives `ConfigFor` of the options; a reply is passed on; every failure, from `fetch`, the status check or the body, ends as a normalised `Exception`; a failed status ends as `Exception(status, statusText)` |
| Fetchers.Fetcher.GetRequest | packages/request/src/fetcher.ts:59-64 | the method is forced to `get`, so there is no body |
| Fetchers.Fetcher.PostRequest | packages/request/src/fetcher.ts:66-71 | the method is forced to `post`, so the data is the JSON body |
| Fetchers.Fetcher.PutRequest | packages/request/src/fetcher.ts:73-78 | the method is forced to `put`, so the data is the JSON body |
| Fetchers.Fetcher.DeleteRequest | packages/request/src/fetcher.ts:80-85 | the method is forced to `delete`, so there is no body |
| RequestHooks.PageFor | packages/request/src/index.ts:117-124 | a page exists if and only if the current error's status has a registered listener, and then it is that listener |
| RequestHooks.AcceptedErrorShowsPage | packages/request/src/index.ts:117-135 | an error that `post` accepts is the one whose page the provider then shows |
| RequestHooks.Listeners.Add | packages/request/src/index.ts:102-105 | the page replaces any page under the key, and the returned remover is for that key |
| RequestHooks.Listeners.Remove | packages/request/src/index.ts:104 | the key is deleted whichever page it holds now, and the result says whether it was present |
| RequestHooks.Provider.Post | packages/request/src/index.ts:126-135 | returns true, with the error becoming current, if and only if it is an `Exception` whose status has a listener; otherwise returns false and the error is unchanged |
| RequestHooks.Provider.Clear | packages/request/src/index.ts:137 | the current error is cleared |
| RequestHooks.Provider.View | packages/request/src/index.ts:139-141 | the provider renders the page for the current error if and only if there is one, and otherwise its children |
| RequestHooks.SubmitHook.Submit | packages/request/src/index.ts:26-31 | when `fn` returns a promise, loading goes true then false, the outcome is passed on unchanged, and a failure is posted to the provider, which takes it exactly when `post` accepts it; when `fn` throws before returning a promise, the call rejects with that error, nothing is posted and loading stays true |
| Deps.WorkspaceDeps | scripts/deps.mjs:28-36 | a dependency is in the pool if and only if it is declared with exactly `workspace:^`; a manifest without `dependencies` adds nothing |
| Deps.Distinct | scripts/deps.mjs:48 | `new Set(target)`: no duplicates, and the same members as the choice |
| Deps.Load | scripts/deps.mjs:16-37 | the map's keys are exactly its ordered key list, and each entry belongs to its key's package |
| Deps.LoadPackages | scripts/deps.mjs:16-37 | the reading loop builds exactly `Load` of the manifests |
| Deps.LoadOrder | scripts/deps.mjs:21-27 | the keys are the package names, each once, in order of first appearance |
| Deps.LoadFirst | scripts/deps.mjs:21-27 | a name has an entry if and only if some manifest carries it, and the entry's file and manifest are those of the first such manifest |
| Deps.LoadPool | scripts/deps.mjs:28-36 | a name's pool holds a dependency if and only if some manifest with that name declares it with `workspace:^` |
| Deps.AddDependants | scripts/deps.mjs:53-58 | visiting one name appends, without duplicates, exactly the packages whose pool holds it and that were not yet in the set; the set only grows, and stays the same when nothing is missing |
| Deps.Doit | scripts/deps.mjs:50-61 | one walk, which also visits additions, leaves the set closed under dependants; it reports `next` if and only if the set grew; it never reports `next` on a closed set; each addition depends on an earlier element |
| Deps.Relatives | scripts/deps.mjs:48-66 | the loop ends holding the choice, without duplicates, closed under dependants, and with every element either chosen or depending on an earlier one |
| Deps.JustifiedIsLeast | scripts/deps.mjs:48-66 | every closed set containing the choice contains the result, which is therefore the least such set |
| Deps.Split | scripts/deps.mjs:79 | `split('.')` always has at least one part |
| Deps.BumpPatch | scripts/deps.mjs:79-80 | `major.minor.patch` with decimal `patch` becomes `major.minor.(patch + 1)` |
| Deps.NextPatch | scripts/deps.mjs:80 | `Number(sp[2]) + 1` written back as text; `Deps.BumpPatch` and `Deps.BumpWithoutPatch` state the result for a decimal and a missing patch |
| Deps.Bump | scripts/deps.mjs:78-80 | the bumped version string; `Deps.BumpPatch` states it keeps major and minor and adds one to a decimal patch |
| Deps.BumpWithoutPatch | scripts/deps.mjs:79-80 | a version with no patch part gets the patch `NaN` |
| Deps.BumpRelatives | scripts/deps.mjs:76-84 | the loop's writes are exactly `Bumped` of the map order and the set |
| Deps.BumpedWrites | scripts/deps.mjs:76-81 | a package of the map is written, with its version bumped, if and only if it is in the set |
| Deps.BumpedOnly | scripts/deps.mjs:76-81 | every write belongs to a package of the map that is in the set |
| Deps.Release | scripts/deps.mjs:46-84 | a non-array answer stops the script with no writes; otherwise the relatives contain the choice, are closed and justified, and the writes happen only on confirmation |

## Left out

- Browser, DOM and process I/O are parameters or plain values:
  - `window.location`, `window.history`, `popstate` listeners;
  - the `fetch` transport;
  - the file system and `require` of `package.json`;
  - the interactive prompts and the logger.
  - `history` is a log of entries and the `mitt` emitter is a count of `location` events.
- Routing:
  - The rou3 router's matching is an abstract function `find`. The model keeps only the path-to-data table that `addRoute` and the removers maintain.
  - qs query parsing is left out; the query arrives already parsed.
- React scheduling is not modelled: `useState` updates, `startTransition`, `useTransition`, `useMemo` recomputation, `useCallback` identity and `useContextEffect`'s pending check. The provider's state is taken to be what the handler computed, and the memoised page is computed from the current error and listener table.
- `useRequest` and `useIntersectionRequest`: their state is React hook state, and the second one depends on `IntersectionObserver`. Their error reporting is `useSubmit`'s (`RequestHooks.SubmitHook.Submit`) followed by `post`.
- The text of the generated registration code is not modelled. `ViteCode.Injection` records the values it interpolates. `import.meta.glob` is represented by the file paths given to `ViteCode.DeriveRoute`.
- The full `ControllerMetadata` type and `types.ts` are not part of this model; only `metaId` is read by the window code.
- Controllers.Combine: when the middleware key holds a non-list value other than `undefined`, the source would spread it; the model treats it as an empty list. `Controllers.StoredMiddlewares` does the same.
- Metadata: callbacks are pure functions. A callback that throws or has side effects (the `console.log` in the method example) is not modelled, and neither is the `descriptor` argument of method decorators.
- Metadata.Key: a symbol key is identified by its description, so two distinct symbols with the same description are the same key here. The source's own symbols (`_middleware`, `Meta.namespace`) have distinct descriptions.
- Metadata.Registry: the prototype chains are a fixed map given when the registry is created. Classes created or re-parented later (`Object.setPrototypeOf`) are not modelled.
- Metadata: the inner `Map`s are values, so aliasing of one inner map by two names is not captured. The source never shares them.
- Exceptions.NewException: the `timestamp` field (`Date.now()`) is left out.
- Fetchers.Fetcher.Request: a `null` or `undefined` rejection reason (where `e.code` itself would throw) is not modelled. A response handler that throws is not modelled either.
- Fetchers.ConfigFor: `JSON.stringify` is the identity on the opaque `Json` value. `undefined` data gives no body.
- Deps.NextPatch: `Number()` is modelled for decimal digit strings, the empty string (0) and a missing part (`NaN`); any other string gives `NaN`. Whitespace, hex, exponent, fraction and sign forms, `Infinity` (which gives `Infinity`), and numbers above 2^53 are not modelled.
- Deps.Bump: a manifest without a `version` field makes `undefined.split` throw and stops the script; the model gives every manifest a version string.
- Deps.Release: `pkg.version` is updated in place in the source. The model records only the written manifest, and the logged line is left out.
- Window.WindowContext.Redirect: the query and hash of the redirect URL are part of the history entry but are not parsed. The round-trip lemmas (`Window.RedirectRoundTrip`, `Window.RedirectRoundTripPath`, `Window.RedirectKeepsPrefixed`) read the pushed URL back as the next pathname. The browser's URL resolution (percent-encoding, `.` and `..` segments, relative URLs) is not modelled.
