/** Properties of the fetch controller over whole runs: a run is a sequence of
    events (the mount, "load more" clicks, and attempts settling in any
    order the network chooses). */
module FetchProperties {
  import opened Pagination
  import opened Fetch

  datatype Event =
    | Mount                                 // the effect runs for the current page
    | LoadMore                              // the button is clicked
    | SettleAttempt(token: nat, outcome: Outcome)

  /** One event; `None` when the event cannot happen in `s` (an attempt that
      is not pending cannot settle). */
  function Apply(s: State, e: Event): (r: Option<State>)
    ensures e.SettleAttempt? ==> (r.Some? <==> e.token in s.pending)
    ensures !e.SettleAttempt? ==> r.Some? && r.value.isLoading
  {
    match e
    case Mount => Some(Started(s))
    case LoadMore => Some(Advanced(s))
    case SettleAttempt(t, o) => if t in s.pending then Some(Settled(s, t, o)) else None
  }

  /** The state after the events of `evs`, in order, starting from `s`. */
  function Run(s: State, evs: seq<Event>): Option<State>
    decreases |evs|
  {
    if evs == [] then Some(s)
    else match Apply(s, evs[0])
      case None => None
      case Some(s') => Run(s', evs[1..])
  }

  /** The number of "load more" clicks in `evs`. */
  function LoadMores(evs: seq<Event>): nat
  {
    if evs == [] then 0 else (if evs[0].LoadMore? then 1 else 0) + LoadMores(evs[1..])
  }

  /** The items of the last successful settle in `evs`, or `d` if none. */
  function LastOkItems(evs: seq<Event>, d: seq<Product>): seq<Product>
  {
    if evs == [] then d
    else LastOkItems(evs[1..], if evs[0].SettleAttempt? && evs[0].outcome.Ok? then evs[0].outcome.items else d)
  }

  /** The error message an outcome records, if it records one: a response
      that is not ok records the fixed message, any other failure except an
      abort records its own message. */
  function RecordedError(o: Outcome): Option<string>
  {
    match o
    case Ok(_) => None
    case NotOk => Some(FailedToFetch)
    case Thrown(f) => if f.name == AbortErrorName then None else Some(f.message)
  }

  /** The error of the last settle in `evs` that recorded one, or `d`. */
  function LastError(evs: seq<Event>, d: Option<string>): Option<string>
  {
    if evs == [] then d
    else
      var e := evs[0];
      LastError(evs[1..], if e.SettleAttempt? && RecordedError(e.outcome).Some? then RecordedError(e.outcome) else d)
  }

  /** Every step keeps the invariant. */
  lemma {:induction false} RunKeepsInv(s: State, evs: seq<Event>, r: State)
    requires Inv(s) && RequestsShownPage(s) && Run(s, evs) == Some(r)
    ensures Inv(r) && RequestsShownPage(r)
    decreases |evs|
  {
    if evs != [] {
      var s' := Apply(s, evs[0]).value;
      match evs[0] {
        case Mount => StartedInv(s);
        case LoadMore => AdvancedInv(s);
        case SettleAttempt(t, o) => SettledInv(s, t, o);
      }
      RunKeepsInv(s', evs[1..], r);
    }
  }

  /** In every reachable state: loading means the newest attempt has not
      settled and asks for the page shown, and every attempt other than the
      newest has been aborted. */
  lemma ReachableInv(evs: seq<Event>, r: State)
    requires Run(Initial(), evs) == Some(r)
    ensures r.page >= 1
    ensures r.isLoading ==> r.current.Some? && r.current.value in r.pending
                            && r.pending[r.current.value] == CalculatePagination(r.page)
    ensures forall t :: t in r.pending && Some(t) != r.current ==> t in r.aborted
  {
    RunKeepsInv(Initial(), evs, r);
  }

  /** The page only moves on a "load more" click, by exactly one each time. */
  lemma {:induction false} PageCountsLoadMores(s: State, evs: seq<Event>, r: State)
    requires Run(s, evs) == Some(r)
    ensures r.page == s.page + LoadMores(evs)
    decreases |evs|
  {
    if evs != [] {
      PageCountsLoadMores(Apply(s, evs[0]).value, evs[1..], r);
    }
  }

  /** The product list is whatever the last successful attempt received,
      replaced wholesale (never appended), whichever attempt that was. */
  lemma {:induction false} ProductsAreLastOk(s: State, evs: seq<Event>, r: State)
    requires Run(s, evs) == Some(r)
    ensures r.products == LastOkItems(evs, s.products)
    decreases |evs|
  {
    if evs != [] {
      ProductsAreLastOk(Apply(s, evs[0]).value, evs[1..], r);
    }
  }

  /** The error is the one recorded by the last failing, non-aborted settle;
      starting an attempt and succeeding both leave it alone. */
  lemma {:induction false} ErrorIsLastFailure(s: State, evs: seq<Event>, r: State)
    requires Run(s, evs) == Some(r)
    ensures r.error == LastError(evs, s.error)
    decreases |evs|
  {
    if evs != [] {
      var e := evs[0];
      var s' := Apply(s, e).value;
      if e.SettleAttempt? {
        assert s'.error == if RecordedError(e.outcome).Some? then RecordedError(e.outcome) else s.error;
      }
      ErrorIsLastFailure(s', evs[1..], r);
    }
  }

  /** Once set, the error is never reset to null. */
  lemma {:induction false} ErrorNeverCleared(s: State, evs: seq<Event>, r: State)
    requires Run(s, evs) == Some(r) && s.error.Some?
    ensures r.error.Some?
    decreases |evs|
  {
    if evs != [] {
      ErrorNeverCleared(Apply(s, evs[0]).value, evs[1..], r);
    }
  }

  /** A transport honours abort when an attempt whose token was aborted
      settles with an `AbortError`. */
  predicate HonoursAbort(s: State, token: nat, o: Outcome)
  {
    token in s.aborted ==> IsAbort(o)
  }

  /** Over a transport that honours abort, a superseded attempt settling
      late changes neither the products nor the error. */
  lemma SupersededSettleInvisible(s: State, token: nat, o: Outcome)
    requires Inv(s) && token in s.pending && Some(token) != s.current
    requires HonoursAbort(s, token, o)
    ensures Settled(s, token, o).products == s.products
    ensures Settled(s, token, o).error == s.error
  {
    assert token in s.aborted;
  }

  /** A superseded attempt's `finally` clears the loading flag while the newest
      attempt is still pending: loading is not "the newest attempt is
      unsettled". */
  lemma AbortedSettleClearsLoading(msg: string)
    ensures var r := Run(Initial(), [Mount, LoadMore, SettleAttempt(0, Thrown(Failure(AbortErrorName, msg)))]);
            r.Some? && !r.value.isLoading && r.value.current == Some(1) && 1 in r.value.pending
  {
    var s1 := Started(Initial());
    var s2 := Advanced(s1);
    var s3 := Settled(s2, 0, Thrown(Failure(AbortErrorName, msg)));
    var evs := [Mount, LoadMore, SettleAttempt(0, Thrown(Failure(AbortErrorName, msg)))];
    assert Run(s3, evs[3..]) == Some(s3);
    assert Run(s2, evs[2..]) == Some(s3);
    assert Run(s1, evs[1..]) == Some(s3);
  }

  /** Nothing checks which attempt a result belongs to: if the transport
      delivers a superseded attempt's data instead of an `AbortError`, it
      overwrites the newest attempt's data. */
  lemma StaleResultOverwrites(older: seq<Product>, newer: seq<Product>)
    ensures var r := Run(Initial(), [Mount, LoadMore, SettleAttempt(1, Ok(newer)), SettleAttempt(0, Ok(older))]);
            r.Some? && r.value.products == older && r.value.current == Some(1)
  {
    var s1 := Started(Initial());
    var s2 := Advanced(s1);
    var s3 := Settled(s2, 1, Ok(newer));
    var s4 := Settled(s3, 0, Ok(older));
    var evs := [Mount, LoadMore, SettleAttempt(1, Ok(newer)), SettleAttempt(0, Ok(older))];
    assert Run(s4, evs[4..]) == Some(s4);
    assert Run(s3, evs[3..]) == Some(s4);
    assert Run(s2, evs[2..]) == Some(s4);
    assert Run(s1, evs[1..]) == Some(s4);
  }

  /** Two quick clicks, with the first click's response arriving last as an
      `AbortError`: only the second click's data is shown and no error. */
  lemma TwoQuickLoadMores(first: seq<Product>, latest: seq<Product>, msg: string)
    ensures var r := Run(Initial(), [Mount, SettleAttempt(0, Ok(first)), LoadMore, LoadMore,
                                     SettleAttempt(2, Ok(latest)), SettleAttempt(1, Thrown(Failure(AbortErrorName, msg)))]);
            r.Some? && r.value.products == latest && r.value.error == None
            && !r.value.isLoading && r.value.page == 3
  {
    var abort := Thrown(Failure(AbortErrorName, msg));
    var s1 := Started(Initial());
    var s2 := Settled(s1, 0, Ok(first));
    var s3 := Advanced(s2);
    var s4 := Advanced(s3);
    var s5 := Settled(s4, 2, Ok(latest));
    var s6 := Settled(s5, 1, abort);
    var evs := [Mount, SettleAttempt(0, Ok(first)), LoadMore, LoadMore, SettleAttempt(2, Ok(latest)), SettleAttempt(1, abort)];
    assert Run(s6, evs[6..]) == Some(s6);
    assert Run(s5, evs[5..]) == Some(s6);
    assert Run(s4, evs[4..]) == Some(s6);
    assert Run(s3, evs[3..]) == Some(s6);
    assert Run(s2, evs[2..]) == Some(s6);
    assert Run(s1, evs[1..]) == Some(s6);
  }

  /** The first page: the request is limit 10, offset 0; a successful
      response is shown as received, with no error. */
  lemma FirstPageLoads(items: seq<Product>)
    ensures Started(Initial()).pending[0] == PageWindow(10, 0)
    ensures var r := Run(Initial(), [Mount, SettleAttempt(0, Ok(items))]);
            r.Some? && r.value.products == items && !r.value.isLoading && r.value.error == None
  {
    var s1 := Started(Initial());
    var s2 := Settled(s1, 0, Ok(items));
    var evs := [Mount, SettleAttempt(0, Ok(items))];
    assert Run(s2, evs[2..]) == Some(s2);
    assert Run(s1, evs[1..]) == Some(s2);
  }

  /** A response that is not ok records the fixed message and keeps the
      products shown before. */
  lemma NotOkKeepsProducts(items: seq<Product>)
    ensures var r := Run(Initial(), [Mount, SettleAttempt(0, Ok(items)), LoadMore, SettleAttempt(1, NotOk)]);
            r.Some? && r.value.products == items && !r.value.isLoading
            && r.value.error == Some("Failed to fetch data")
  {
    var s1 := Started(Initial());
    var s2 := Settled(s1, 0, Ok(items));
    var s3 := Advanced(s2);
    var s4 := Settled(s3, 1, NotOk);
    var evs := [Mount, SettleAttempt(0, Ok(items)), LoadMore, SettleAttempt(1, NotOk)];
    assert Run(s4, evs[4..]) == Some(s4);
    assert Run(s3, evs[3..]) == Some(s4);
    assert Run(s2, evs[2..]) == Some(s4);
    assert Run(s1, evs[1..]) == Some(s4);
  }
}
