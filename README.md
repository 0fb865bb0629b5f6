# Paginated product fetch: a Dafny model

This project models the two pieces of logic in a small React page that lists
products from a remote API one page at a time:

- the **pagination calculator** `calculatePagination(page, itemsPerPage = 10)`
  (`src/utils/helper.ts`), which turns a 1-based page number into the
  `limit`/`offset` query parameters. It is module `Pagination`, written as pure
  functions;
- the **fetch controller** of the `Fetch` component (`src/Fetch.tsx`). It holds
  the page, the loading flag, the last error, the product list and the
  current abort controller. Advancing the page, or mounting, starts an
  attempt. Each attempt aborts the previous controller, installs a new one and
  sets loading. When it settles, it replaces the products, records an error, or
  (for an `AbortError`) does neither, and then always clears loading. Module
  `Fetch` holds it twice: as the value `State` with the step functions
  `Started`, `Advanced` and `Settled`, and as the class `Controller`, whose
  fields are the state cells and whose methods `StartAttempt`, `AdvancePage`
  and `Settle` update them in place and are proved to follow the step
  functions.

The network is replaced by an `Outcome` that the caller hands to `Settle`:
`Ok(items)`, `NotOk` (a response whose `ok` is false) or `Thrown(Failure(name,
message))` (fetch or body parsing rejected). Each `AbortController` is
replaced by a token id. `abortRef` stands for `abortControllerRef.current`,
`aborted` holds the tokens whose `abort()` has run, and `pending` holds the
attempts that have not settled yet, each with its request. Module
`FetchProperties` replays runs of events (`Mount`, `LoadMore`,
`SettleAttempt`) with `Run` and proves what holds over any run.

The model follows the code as written, not an idealised design:

- nothing checks which attempt a result belongs to. A superseded attempt is
  ignored only because its `fetch` rejects with `AbortError`;
- the error is never reset to null;
- a superseded attempt's `finally` clears the loading flag even though the
  newest attempt is still pending.

The lemmas prove the direction that does hold (loading implies the newest
attempt is pending). They also exhibit runs where the converse fails and
where a superseded attempt's result is not ignored.

## Model

| member | source | states |
|---|---|---|
| `Pagination.CalculatePagination` | src/utils/helper.ts:1-9 | `limit` is the page size; the window ends at `page * itemsPerPage`; for page ≥ 1 and a non-negative size the offset is non-negative |
| `Pagination.DefaultIsTen` | src/utils/helper.ts:3-6 | omitting the page size is the same as passing 10: limit 10, offset `10 * (page - 1)` |
| `Pagination.FirstPageStartsAtZero` | src/utils/helper.ts:6 | page 1 has offset 0 for every page size |
| `Pagination.PagesAbut` | src/utils/helper.ts:5-6 | page `p + 1` starts where page `p` ends (`offset + limit`) |
| `Pagination.ItemsThroughIsPrefix` | src/utils/helper.ts:5-6 | loading pages 1..n in turn requests items 0 .. n·size − 1 exactly once each, in order |
| `Pagination.ItemOnPage` | src/utils/helper.ts:6 | for a positive size, item `i` is in page `p`'s window iff `p == i / size + 1`, so each item is on exactly one page |
| `Fetch.Initial` | src/Fetch.tsx:12-17 | the first render's state: page 1, not loading, error null, no products, null abort ref, no attempts; it satisfies the controller invariant |
| `Fetch.IsAbort` | src/Fetch.tsx:42 | an outcome is swallowed exactly when the failure the catch block sees is named `AbortError`; success and a non-ok response never are |
| `Fetch.Started` | src/Fetch.tsx:21-29 | starting an attempt aborts the stored token, stores a fresh one, sets loading, and records a request equal to `calculatePagination(page)`; page, error and products are unchanged |
| `Fetch.Advanced` | src/Fetch.tsx:63 | "load more" raises the page by exactly one and starts an attempt whose request is the new page's pagination; error and products are unchanged |
| `Fetch.Caught` | src/Fetch.tsx:35-36 | the catch block sees a failure exactly when the outcome is not a success |
| `Fetch.Settled` | src/Fetch.tsx:35-49 | every settle clears loading; success replaces products wholesale and keeps the error; non-ok sets "Failed to fetch data"; another non-abort failure sets its message; an abort changes neither; page and tokens are unchanged |
| `Fetch.StartedInv` | src/Fetch.tsx:21-24 | starting an attempt keeps the invariant: only the newest token is unaborted, and loading implies it is pending |
| `Fetch.AdvancedInv` | src/Fetch.tsx:63 | "load more" keeps the invariant |
| `Fetch.SettledInv` | src/Fetch.tsx:47-48 | settling any pending attempt keeps the invariant |
| `Fetch.Controller.constructor` | src/Fetch.tsx:12-17 | initial cells: page 1, not loading, error null, products empty, abort ref null |
| `Fetch.Controller.StartAttempt` | src/Fetch.tsx:20-33 | new state is `Started(old state)`; the old token is aborted; the returned token is fresh and is the ref; the request is `calculatePagination(page)` |
| `Fetch.Controller.AdvancePage` | src/Fetch.tsx:63 | new state is `Advanced(old state)`: page + 1, loading, and a request with offset `10 * old page` |
| `Fetch.Controller.Settle` | src/Fetch.tsx:35-49 | new state is `Settled(old state, token, outcome)`: loading cleared, products replaced only on success, error kept on abort |
| `FetchProperties.Apply` | src/Fetch.tsx:19-53 | mount and "load more" always apply and set loading; a settle applies exactly when its attempt is pending |
| `FetchProperties.RunKeepsInv` | src/Fetch.tsx:21-48 | every run that starts in a state satisfying both the invariant and "the newest pending attempt requests the shown page" ends in a state satisfying both |
| `FetchProperties.ReachableInv` | src/Fetch.tsx:21-24 | in every reachable state, loading implies the newest attempt is pending and requests the shown page, and every other pending attempt has been aborted |
| `FetchProperties.PageCountsLoadMores` | src/Fetch.tsx:63 | the page equals its start value plus the number of "load more" clicks; nothing else moves it |
| `FetchProperties.ProductsAreLastOk` | src/Fetch.tsx:39-40 | products are exactly the items of the last successful settle (never appended), or unchanged if none |
| `FetchProperties.ErrorIsLastFailure` | src/Fetch.tsx:35-46 | the error is the one recorded by the last non-ok or non-abort failing settle, or unchanged if none |
| `FetchProperties.ErrorNeverCleared` | src/Fetch.tsx:46 | once the error is set, no run resets it to null |
| `FetchProperties.SupersededSettleInvisible` | src/Fetch.tsx:42-44 | if the transport answers an aborted attempt with `AbortError`, a superseded attempt's settle changes neither products nor error |
| `FetchProperties.AbortedSettleClearsLoading` | src/Fetch.tsx:42-48 | after mount, "load more" and the first attempt's `AbortError`, loading is false while the newest attempt is still pending |
| `FetchProperties.StaleResultOverwrites` | src/Fetch.tsx:39-40 | if a superseded attempt's data arrives after the newest attempt's, it replaces the newest data: there is no generation check |
| `FetchProperties.TwoQuickLoadMores` | src/Fetch.tsx:21-48 | two quick clicks, with the earlier one aborted and settling last: the shown data is the later one's, with no error, not loading, page 3 |
| `FetchProperties.FirstPageLoads` | src/Fetch.tsx:27-40 | the first request is limit 10, offset 0; its success shows the items received, with no error and not loading |
| `FetchProperties.NotOkKeepsProducts` | src/Fetch.tsx:35-36 | a non-ok response records "Failed to fetch data" and leaves the earlier products in place |

## Left out

- Rendering (the JSX, CSS classes and list display) is presentation only.
- The real `fetch`, `response.json()` and `AbortController` are platform APIs. Each attempt's result is an `Outcome` parameter of `Settle`, and each controller is a token id. Whether the platform really answers an aborted request with `AbortError` is a hypothesis (`HonoursAbort`), not a fact of the model.
- React's `useState`/`useEffect`/`useRef` scheduling and batching are not modelled. A page change runs the effect at once, inside `AdvancePage`. Two clicks that read the same stale `page` within one render are not modelled. StrictMode's second effect run on mount is covered only because `Mount` may occur more than once.
- `console.log("Aborted")` is diagnostic output.
- `BASE_URL` and the URL string are not modelled; the request is its `limit`/`offset` pair.
- `src/main.tsx` only mounts the component and has no logic.
- JavaScript numbers are modelled as unbounded integers. Fractional, NaN or unsafe-integer pages and page sizes are not modelled; the page only ever starts at 1 and increases by one.
- A thrown value that is not an `Error` (no `name` or `message`) is not modelled. Every rejection carries a name and a message string.
- Reading the state changes nothing: `Controller.Model` is a function of the fields, so no separate lemma states it.
- A 2xx body is stored as received: `as Product[]` on src/Fetch.tsx:39 is only a type assertion, so a body that is not a product array would be stored anyway. `Ok(items: seq<Product>)` cannot express such a body; the model assumes every successful body is a product list.
