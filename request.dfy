/**
 * Request error dispatch (packages/request/src/index.ts): a registry of
 * pages keyed by error status, a provider holding the current blocking
 * error, and the `useSubmit` hook that tracks loading and reports
 * failures to the provider.
 */
module RequestHooks {
  import opened Wrappers
  import opened Exceptions

  /** A page component registered for a status. */
  type Page = nat

  /** The closure `addListener` returns: it deletes its key. */
  datatype ListenerRemover = ListenerRemover(key: Status)

  /** What the provider renders inside its context: the page for the current error, or its children. */
  datatype Rendered = PageElement(page: Page) | ChildrenElement

  /** `post`'s decision: only an `Exception` whose status has a page is taken. */
  predicate Accepts(table: map<Status, Page>, t: Thrown) {
    t.Raised? && t.exception.status in table
  }

  /** The memoised `Page`: the page registered for the current error's status, if any. */
  function PageFor(table: map<Status, Page>, error: Option<Exception>): (p: Option<Page>)
    ensures p.Some? <==> error.Some? && error.value.status in table
    ensures p.Some? ==> p.value == table[error.value.status]
  {
    if error.Some? && error.value.status in table then Some(table[error.value.status]) else None
  }

  /** An error `post` accepted is the one whose page is shown. */
  lemma AcceptedErrorShowsPage(table: map<Status, Page>, t: Thrown)
    requires Accepts(table, t)
    ensures PageFor(table, Some(t.exception)) == Some(table[t.exception.status])
  {
  }

  /** `RequestListeners` */
  class Listeners {
    var table: map<Status, Page>

    constructor()
      ensures table == map[]
    {
      table := map[];
    }

    /** `addListener(key, listener)`: replaces any page under `key`, and returns the remover of `key`. */
    method Add(key: Status, page: Page) returns (remove: ListenerRemover)
      modifies this
      ensures table == old(table)[key := page]
      ensures remove.key == key
    {
      table := table[key := page];
      remove := ListenerRemover(key);
    }

    /** Calling a remover deletes its key, whichever page is there now; the result says whether there was one. */
    method Remove(remove: ListenerRemover) returns (deleted: bool)
      modifies this
      ensures table == old(table) - {remove.key}
      ensures deleted <==> remove.key in old(table)
    {
      deleted := remove.key in table;
      table := table - {remove.key};
    }
  }

  /** The state of a `RequestProvider`: its current blocking error. */
  class Provider {
    var error: Option<Exception>

    constructor()
      ensures error == None
    {
      error := None;
    }

    /** `post(e)`: true and `e` becomes the current error exactly when `e` is an `Exception` with a registered page; otherwise false and nothing changes. */
    method Post(listeners: Listeners, t: Thrown) returns (handled: bool)
      modifies this
      ensures handled <==> Accepts(listeners.table, t)
      ensures handled ==> error == Some(t.exception)
      ensures !handled ==> error == old(error)
    {
      handled := false;
      if t.Raised? {
        var status := t.exception.status;
        if status in listeners.table {
          error := Some(t.exception);
          handled := true;
        }
      }
    }

    /** `clear()` */
    method Clear()
      modifies this
      ensures error == None
    {
      error := None;
    }

    /** `Page ? createElement(Page) : props.children` */
    function View(listeners: Listeners): (r: Rendered)
      reads this, listeners
      ensures r.PageElement? <==> PageFor(listeners.table, error).Some?
      ensures r.PageElement? ==> r.page == listeners.table[error.value.status]
    {
      match PageFor(listeners.table, error)
      case Some(p) => PageElement(p)
      case None => ChildrenElement
    }
  }

  /** How a call of `fn(...args)` ends: its promise settles, or `fn` throws before returning one. */
  datatype Call<T> = Settled(result: Result<T, Thrown>) | Threw(error: Thrown)

  /** The state behind `useSubmit`: the `loading` flag and the values it was set to, in order. */
  class SubmitHook {
    var loading: bool
    var loadingLog: seq<bool>

    constructor()
      ensures !loading && loadingLog == []
    {
      loading, loadingLog := false, [];
    }

    /**
     * `submit(...args)`: loading is set to true first. When `fn` returns a
     * promise, loading is set to false once it settles, and a failure is
     * posted to the provider and rejected again unchanged. When `fn`
     * throws before returning a promise, the async callback rejects with
     * that error before `.catch` and `.finally` are attached: nothing is
     * posted and loading stays true.
     */
    method Submit<T>(provider: Provider, listeners: Listeners, call: Call<T>) returns (r: Result<T, Thrown>)
      modifies this, provider
      ensures call.Settled? ==> r == call.result && loadingLog == old(loadingLog) + [true, false] && !loading
      ensures call.Settled? && call.result.Success? ==> provider.error == old(provider.error)
      ensures call.Settled? && call.result.Failure? ==>
        provider.error == if Accepts(listeners.table, call.result.error) then Some(call.result.error.exception) else old(provider.error)
      ensures call.Threw? ==>
        r == Failure(call.error) && loadingLog == old(loadingLog) + [true] && loading && provider.error == old(provider.error)
    {
      loading := true;
      loadingLog := loadingLog + [true];
      match call {
        case Threw(e) =>
          r := Failure(e);
        case Settled(outcome) =>
          if outcome.Failure? {
            var _ := provider.Post(listeners, outcome.error);
          }
          loading := false;
          loadingLog := loadingLog + [false];
          r := outcome;
      }
    }
  }
}
