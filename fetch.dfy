/** The paginated-fetch controller of the `Fetch` component: the page
    number, the loading flag, the last error, the product list and the abort
    token of the latest attempt. The network is replaced by an outcome that
    each attempt settles with; abort controllers are replaced by token ids. */
module Fetch {
  import opened Pagination

  datatype Option<T> = None | Some(value: T)

  /** A product as the API returns it; only `id` and `title` are used. */
  datatype Product = Product(id: int, title: string)

  /** What the `catch` block receives: a thrown error's `name` and `message`. */
  datatype Failure = Failure(name: string, message: string)

  /** How one attempt's `fetch` and `response.json()` end. */
  datatype Outcome =
    | Ok(items: seq<Product>)   // 2xx response whose body parsed to `items`
    | NotOk                     // a response whose `ok` is false
    | Thrown(failure: Failure)  // fetch or json() rejected (network, parse, abort)

  /** The message of the error thrown for a response that is not ok. */
  const FailedToFetch: string := "Failed to fetch data"
  /** The `name` of the error an aborted fetch rejects with. */
  const AbortErrorName: string := "AbortError"
  /** The `name` of an error built with `new Error(...)`. */
  const PlainErrorName: string := "Error"

  /** The controller's whole state. `current` is `abortControllerRef.current`
      (`None` is null); `aborted` holds the tokens whose `abort()` has been
      called; `pending` maps each started, unsettled attempt to its request;
      `nextToken` is the id the next `new AbortController()` gets. */
  datatype State = State(
    page: int,
    isLoading: bool,
    error: Option<string>,
    products: seq<Product>,
    current: Option<nat>,
    aborted: set<nat>,
    pending: map<nat, PageWindow>,
    nextToken: nat)

  /** The state when the component is first rendered. */
  function Initial(): (r: State)
    ensures r.page == 1 && !r.isLoading && r.error == None && r.products == []
    ensures r.current == None && r.pending == map[]
    ensures Inv(r)
  {
    State(1, false, None, [], None, {}, map[], 0)
  }

  /** The invariant every reachable state keeps. */
  ghost predicate Inv(s: State)
  {
    && s.page >= 1
    // the ref is null exactly until the first attempt, then holds the newest token
    && (s.current == if s.nextToken == 0 then None else Some(s.nextToken - 1))
    // every attempt but the newest has been aborted: at most one is current
    && (forall t: nat :: t in s.aborted <==> t < s.nextToken - 1)
    && (forall t :: t in s.pending ==> t < s.nextToken)
    // loading implies the newest attempt has not settled (the converse fails)
    && (s.isLoading ==> s.current.Some? && s.current.value in s.pending)
  }

  /** An unsettled newest attempt asks for the page now shown. It holds in
      every reachable state, but not between `setPage` and the effect. */
  ghost predicate RequestsShownPage(s: State)
  {
    s.current.Some? && s.current.value in s.pending ==>
      s.pending[s.current.value] == CalculatePagination(s.page)
  }

  /** The effect body up to the first `await`: abort the stored token, store a
      fresh one, set loading, and issue the request for the current page. */
  function Started(s: State): (r: State)
    ensures r.isLoading
    ensures r.current == Some(s.nextToken) && r.nextToken == s.nextToken + 1
    ensures r.aborted == if s.current.Some? then s.aborted + {s.current.value} else s.aborted
    ensures r.pending == s.pending[s.nextToken := CalculatePagination(s.page)]
    ensures r.page == s.page && r.error == s.error && r.products == s.products
  {
    var aborted := if s.current.Some? then s.aborted + {s.current.value} else s.aborted;
    var token := s.nextToken;
    s.(aborted := aborted, current := Some(token), nextToken := token + 1,
       isLoading := true, pending := s.pending[token := CalculatePagination(s.page)])
  }

  /** "Load more": the page goes up by one, and the page change runs the
      effect, which starts an attempt for the new page. */
  function Advanced(s: State): (r: State)
    ensures r.page == s.page + 1
    ensures r.isLoading && r.current == Some(s.nextToken) && s.nextToken in r.pending
    ensures r.pending[s.nextToken] == CalculatePagination(s.page + 1)
    ensures r.error == s.error && r.products == s.products
  {
    Started(s.(page := s.page + 1))
  }

  /** The failure the `catch` block sees for an outcome, if any. A response
      that is not ok is thrown as `new Error("Failed to fetch data")`. */
  function Caught(o: Outcome): (f: Option<Failure>)
    ensures f.None? <==> o.Ok?
  {
    match o
    case Ok(_) => None
    case NotOk => Some(Failure(PlainErrorName, FailedToFetch))
    case Thrown(failure) => Some(failure)
  }

  /** An outcome the `catch` block swallows without recording an error: the
      caught failure is named `AbortError`, which the failure thrown for a
      non-ok response never is. */
  predicate IsAbort(o: Outcome)
    ensures IsAbort(o) <==> Caught(o).Some? && Caught(o).value.name == AbortErrorName
    ensures o.Ok? || o.NotOk? ==> !IsAbort(o)
  {
    o.Thrown? && o.failure.name == AbortErrorName
  }

  /** The attempt for `token` settles with `o`: the `try`/`catch`/`finally`
      after the request. */
  function Settled(s: State, token: nat, o: Outcome): (r: State)
    requires token in s.pending
    ensures !r.isLoading
    ensures r.products == if o.Ok? then o.items else s.products
    ensures o.NotOk? ==> r.error == Some(FailedToFetch)
    ensures o.Thrown? && !IsAbort(o) ==> r.error == Some(o.failure.message)
    ensures o.Ok? || IsAbort(o) ==> r.error == s.error
    ensures r.pending == s.pending - {token}
    ensures r.page == s.page && r.current == s.current && r.aborted == s.aborted
    ensures r.nextToken == s.nextToken
  {
    var products := if o.Ok? then o.items else s.products;
    var f := Caught(o);
    var error := if f.Some? && f.value.name != AbortErrorName then Some(f.value.message) else s.error;
    s.(products := products, error := error, isLoading := false, pending := s.pending - {token})
  }

  lemma StartedInv(s: State)
    requires Inv(s)
    ensures Inv(Started(s))
  {
  }

  lemma AdvancedInv(s: State)
    requires Inv(s)
    ensures Inv(Advanced(s))
  {
    StartedInv(s.(page := s.page + 1));
  }

  lemma SettledInv(s: State, token: nat, o: Outcome)
    requires Inv(s) && token in s.pending
    ensures Inv(Settled(s, token, o))
  {
  }

  /** The `Fetch` component's controller, as mutable state cells. */
  class Controller {
    var page: int
    var isLoading: bool
    var error: Option<string>
    var products: seq<Product>
    var abortRef: Option<nat>
    var aborted: set<nat>
    var pending: map<nat, PageWindow>
    var nextToken: nat

    /** The value of all state cells together. */
    function Model(): State
      reads this
    {
      State(page, isLoading, error, products, abortRef, aborted, pending, nextToken)
    }

    ghost predicate Valid()
      reads this
    {
      Inv(Model())
    }

    /** The component's first render: the `useState` initial values and a
        null abort ref. */
    constructor ()
      ensures Valid() && Model() == Initial()
      ensures page == 1 && !isLoading && error == None && products == []
      ensures abortRef == None && pending == map[]
    {
      page, isLoading, error, products := 1, false, None, [];
      abortRef, aborted, pending, nextToken := None, {}, map[], 0;
    }

    /** Runs the effect up to its request (on mount and on every page
        change); returns the new attempt's token and the request it issues. */
    method StartAttempt() returns (token: nat, request: PageWindow)
      requires Valid()
      modifies this
      ensures Valid() && Model() == Started(old(Model()))
      ensures old(abortRef).Some? ==> old(abortRef).value in aborted
      ensures token == old(nextToken) && token !in old(pending) && abortRef == Some(token)
      ensures isLoading && token in pending && request == pending[token]
      ensures request == CalculatePagination(page)
    {
      StartedInv(Model());
      if abortRef.Some? {
        aborted := aborted + {abortRef.value};
      }
      token := nextToken;
      nextToken := nextToken + 1;
      abortRef := Some(token);
      isLoading := true;
      request := CalculatePagination(page);
      pending := pending[token := request];
    }

    /** The "Load more" button: `setPage(page + 1)`, after which the page
        change runs the effect. */
    method AdvancePage() returns (token: nat, request: PageWindow)
      requires Valid()
      modifies this
      ensures Valid() && Model() == Advanced(old(Model()))
      ensures page == old(page) + 1 && abortRef == Some(token) && isLoading
      ensures request == CalculatePagination(page) && request.offset == old(page) * 10
    {
      page := page + 1;
      token, request := StartAttempt();
    }

    /** The attempt for `token` settles with `outcome`. */
    method Settle(token: nat, outcome: Outcome)
      requires Valid() && token in pending
      modifies this
      ensures Valid() && Model() == Settled(old(Model()), token, outcome)
      ensures !isLoading && token !in pending
      ensures outcome.Ok? ==> products == outcome.items
      ensures !outcome.Ok? ==> products == old(products)
      ensures IsAbort(outcome) ==> error == old(error)
    {
      SettledInv(Model(), token, outcome);
      var caught: Option<Failure> := None;
      match outcome {
        case Ok(items) =>
          products := items;
        case NotOk =>
          caught := Some(Failure(PlainErrorName, FailedToFetch));
        case Thrown(failure) =>
          caught := Some(failure);
      }
      if caught.Some? && caught.value.name != AbortErrorName {
        error := Some(caught.value.message);
      }
      isLoading := false;
      pending := pending - {token};
    }
  }
}
