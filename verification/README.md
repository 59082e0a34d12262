# Transactions feed orchestration

A model of the data layer of a small transactions viewer (a React app). Two
feeds can supply the list on screen: a paginated "all transactions" feed and a
"transactions of one employee" feed. A selector switches between them.

- `PaginatedTransactions` (`paginated_transactions.dfy`) models the
  `usePaginatedTransactions` hook. Its state cell holds either nothing or one
  accumulated page `{data, nextPage}`. `fetchAll` issues no request once a last
  page (`nextPage` null) is stored. Otherwise it asks for page 0, or for the
  stored cursor, and merges the answer. A null answer keeps the state. The first
  answer is adopted as it is. Later answers are appended, and the cursor is
  taken from the newest page. `invalidateData` empties the cell. The updater is
  the pure function `Merge`. The hook itself is the class
  `PaginatedTransactionsStore`. `Run` folds a sequence of fetches, and the
  lemmas about `Run` state what accumulation means across many fetches.
- `App` (`app.dfy`) models the `App` component. The class `AppState` holds the
  paginated store, the roster, the per-employee list, `isLoading` and
  `visibleCount`. Its methods are the two selection commands, the startup
  effect, the selector's `onChange` and the "View More" click. The derived
  values are pure functions: the displayed list, the visible window, the
  "View More" test and the selector's items. Each step of a command (setting
  the loading flag, dropping a feed, one fetch, growing the window) is a small
  method that both changes its state cell and appends an event to a ghost
  `trace`, with the state the step sees: the loading flag, whether the other
  feed is already dropped, and the window size. The two selection commands,
  the startup effect, the selector's `onChange` and the "View More" click all
  state their whole trace (`LoadAllEvents`, `LoadByEmployeeEvents`), so the
  order of the steps is part of what is proved.
- `Types` and `Wrappers` hold the records and `Option`, which stands for
  `T | null`.

Fetches are not performed. Every awaited fetch is a parameter of the method
that awaits it. The paginated request is a function from page number to a
possibly null answer, so a request that is never issued is visibly never
asked. The roster hook and the per-employee hook are not part of this model.
Their fetches are given as the value their store holds once the fetch
completes, and that value may be null.

Three behaviours of the code are worth knowing, and the model keeps them:
- choosing "All Employees" fetches the roster every time, even when it is
  already loaded;
- choosing "All Employees" does not reset the paginated feed. If the feed is
  already loaded, the next page is appended, and if its last page is stored,
  nothing happens;
- "View More" adds 5 to the window even when the fetch answered null, and the
  selection commands never reset the window.

## Model

| member | source | states |
|---|---|---|
| PaginatedTransactions.RequestedPage | src/hooks/usePaginatedTransactions.ts:13-21 | no request is issued exactly when a last page is stored; otherwise the request is for page 0 from a null state, else for the stored `nextPage` |
| PaginatedTransactions.Merge | src/hooks/usePaginatedTransactions.ts:25-39 | a null answer keeps the previous state (null included); from null the answer is adopted verbatim; otherwise data = old data ++ answer data, in order, and nextPage = the answer's; old data is always a prefix of the new data |
| PaginatedTransactions.FetchStep | src/hooks/usePaginatedTransactions.ts:12-39 | one `fetchAll`: a stored last page or a null answer leaves the state unchanged; a non-null state stays non-null; accumulated data only grows |
| PaginatedTransactions.RunExtends | src/hooks/usePaginatedTransactions.ts:25-39 | over any number of fetches, earlier data is a prefix of later data, its length never decreases, and a non-null state never becomes null |
| PaginatedTransactions.TerminalStaysPut | src/hooks/usePaginatedTransactions.ts:13-16 | once a last page is stored, any further fetches leave the state exactly as it was and still issue no request |
| PaginatedTransactions.NullAnswersKeepState | src/hooks/usePaginatedTransactions.ts:26-27 | any number of null answers leave the state exactly as it was |
| PaginatedTransactions.AccumulatesOnto | src/hooks/usePaginatedTransactions.ts:30-38 | from a state with a cursor, pages P1..Pn with only Pn possibly last give data = old data ++ P1.data ++ ... ++ Pn.data and nextPage = Pn.nextPage |
| PaginatedTransactions.AccumulatesPages | src/hooks/usePaginatedTransactions.ts:25-39 | from null, pages P1..Pn with only Pn possibly last give data = P1.data ++ ... ++ Pn.data and nextPage = Pn.nextPage |
| PaginatedTransactions.NextRequestFollowsCursor | src/hooks/usePaginatedTransactions.ts:21-37 | after a page is merged, the next request is for that page's nextPage, or no request at all when it was the last page |
| PaginatedTransactions.PaginatedTransactionsStore.constructor | src/hooks/usePaginatedTransactions.ts:8-10 | the state starts null |
| PaginatedTransactions.PaginatedTransactionsStore.FetchAll | src/hooks/usePaginatedTransactions.ts:12-40 | returns the requested page (none when the guard fires) and leaves the state as `FetchStep` of the old state and the answer to that request |
| PaginatedTransactions.PaginatedTransactionsStore.InvalidateData | src/hooks/usePaginatedTransactions.ts:42-44 | the state becomes null whatever it held, so the next fetch asks for page 0 |
| App.DisplayedTransactions | src/App.tsx:24-27 | the per-employee list whenever it is non-null (even empty), else the paginated data when that state is non-null, else the empty list |
| App.DisplayedIgnoresPrecedence | src/App.tsx:24-27 | when at most one feed is non-null, preferring the paginated feed would give the same list |
| App.Rendered | src/App.tsx:90 | the visible list is the prefix of the displayed list of length min(visibleCount, its length) |
| App.ViewMoreShown | src/App.tsx:94 | "View More" is shown iff the per-employee list is null, the paginated state is non-null and its nextPage is non-null |
| App.ViewMoreFetchesNextPage | src/App.tsx:94-100 | when "View More" is shown, the displayed list is the paginated data and the click's fetch requests the stored cursor |
| App.ViewMoreKeepsVisiblePrefix | src/App.tsx:90-101 | after a click (a fetch, then 5 more rows), what was visible before is still visible, in order, at the head of the list |
| App.SelectorItems | src/App.tsx:64 | no items while the roster is null; otherwise the "All Employees" sentinel followed by the roster, in order |
| App.SelectionCommand | src/App.tsx:71-83 | null selects nothing; the sentinel's id selects loading everything; any other id selects loading that employee |
| App.SelectingAnItem | src/App.tsx:64-83 | picking the first selector item loads everything; picking roster entry i loads that employee's transactions |
| App.AppState.constructor | src/App.tsx:12-16 | both feeds and the roster start null, `isLoading` false, `visibleCount` 5 |
| App.AppState.LoadAllTransactions | src/App.tsx:30-38 | steps in order: loading set to true, per-employee list dropped, roster fetched while loading is true and the list is already null, page fetched while loading is still true, loading set to false; afterwards the per-employee list is null, so at most one feed is non-null; the window is unchanged |
| App.AppState.LoadTransactionsByEmployee | src/App.tsx:40-46 | the paginated feed is dropped before the employee's list is fetched, and the fetch sees it already null; afterwards at most one feed is non-null; loading flag and window untouched |
| App.AppState.SetLoadingStep | src/App.tsx:31 | sets `isLoading` to the given value (also the call at line 37), keeps the roster, the per-employee list and the window, and records `SetLoading` with the new value |
| App.AppState.InvalidateByEmployeeStep | src/App.tsx:32 | the per-employee list becomes null; roster, loading flag and window are kept; records `InvalidateByEmployee` |
| App.AppState.FetchEmployeesStep | src/App.tsx:34 | the roster becomes the fetched value; per-employee list, loading flag and window are kept; records `FetchEmployees` with the loading flag and whether the per-employee list was already null when the fetch started |
| App.AppState.FetchPageStep | src/App.tsx:35 | one paginated `fetchAll` (also the call at line 100): returns the requested page of the old state and leaves the paginated state as `FetchStep` of it and the answer; roster, per-employee list, loading flag and window are kept; records `FetchPage` with the request, the loading flag and the window it sees |
| App.AppState.InvalidatePaginatedStep | src/App.tsx:42 | the paginated state becomes null; roster, per-employee list, loading flag and window are kept; records `InvalidatePaginated` |
| App.AppState.FetchByEmployeeStep | src/App.tsx:43 | the per-employee list becomes the answer for the given id; roster, loading flag and window are kept; records `FetchByEmployee` with the id and whether the paginated state is null |
| App.AppState.GrowWindowStep | src/App.tsx:101 | `visibleCount` grows by exactly 5; roster, per-employee list and loading flag are kept; records `GrowWindow` with the new window |
| App.AppState.Startup | src/App.tsx:48-52 | when the roster is null and not loading, runs the load-all command: the same final state and the same ordered steps (`LoadAllEvents`) as `loadAllTransactions`; otherwise changes nothing and records nothing; keeps "at most one feed non-null" |
| App.AppState.OnChange | src/App.tsx:71-83 | a null selection changes nothing and records nothing; the sentinel runs the load-all command and any other employee the per-employee command, each with that command's final state and its ordered steps (`LoadAllEvents`, `LoadByEmployeeEvents`); the window is never touched; keeps "at most one feed non-null" |
| App.AppState.ViewMore | src/App.tsx:98-102 | fetches the page at the stored cursor and merges it while the window still has its old size, then adds exactly 5 to `visibleCount`; the visible list only grows; keeps "at most one feed non-null" |

## Left out

- Rendering, CSS classes, logging and the `disabled` attribute of "View More": presentation only.
- React scheduling and dependency lists: each command runs atomically over the current state. `fetchAll` reading a stale `paginatedTransactions` from an earlier render is not modelled.
- Interleaving between awaits: each awaited fetch is a parameter of the command.
- `useCustomFetch`, `fetchWithCache`, its caching and its `loading` flag: the paginated answer is a function parameter, and the hook's returned `loading` is not modelled.
- `useEmployees` and `useTransactionsByEmployee` are not part of this model: their fetches are given as the store's new value, which may be null.
- The "at most one feed non-null" property of the commands rests on two assumptions about those hooks: `invalidateData` of the per-employee hook sets its list to null, and the roster fetch and the per-employee fetch each write only their own state.
- `EMPTY_EMPLOYEE` lives in `src/utils/constants`, which is not part of this model; the model gives it the id `""`.
- The record types in `src/utils/types` are not part of this model; `amount` is a JavaScript number there and an `int` here, and the core never reads it.
- Rejected fetches: if an await throws, the source never lowers `isLoading`; the model has no rejection path.
- App.ViewMoreShown: the source compares `transactions` with `paginatedTransactions?.data` by object identity; the model assumes the per-employee array is never the paginated array.
- App.AppState.ViewMore: requires "View More" to be shown, since the click handler exists only then.
