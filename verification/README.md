# Book search: the books slice and the fetch thunk

This project models the state layer of a small book-search web page. The page
has a search box, a category selector and a sort selector. Results come from
a public book-search service.

- `book_reducer.dfy`, module `BookReducer`. The books slice of the Redux store
  (`kind`, `totalItems`, `items`, `q`, `key`, `filter`, `orderBy`,
  `categories`) is a datatype. The initial state is a function. The books
  reducer is the function `Reduce`. Its contract is stated field by field:
  `Writes(a)` is the set of fields an action writes and `Written(a, f)` the
  value it writes. Every field of the result is either the written value or
  the old one. `Replay` dispatches a sequence of actions in order.
- The action creators `setBooks`, `setQValueSearch`, `setFilter`, `setOrderBy`
  and `setCategories` are the constructors `SetBooks`, `SetQValue`,
  `SetFilter`, `SetOrderBy` and `SetCategories` of `Action`. The same datatype
  carries the actions the thunk dispatches to other slices: `AppIsLoading`,
  `AppInfo` and `HandleError`. It also has `Other` for any foreign action.
  The books reducer ignores all of these.
- `fetch_books.dfy`, module `Thunks`. `FetchEvents` is the ordered list of
  actions one run of `fetchBooks` dispatches. It is built from the state the
  run reads and the search service, which is a function parameter
  `api: Query -> Outcome`. `Store` is the store as the thunk sees it. It is a
  class whose `books` field is replaced on each `Dispatch`. `Store.FetchBooks`
  is the thunk written step by step, in its try/catch/finally order, and is
  proved equal to `FetchEvents` folded through `Reduce`.
- `header.dfy`, module `Header`. The header is not part of the state layer.
  Its handlers are modelled as the actions they dispatch. The effect that
  triggers a fetch is a predicate. The lemmas show how the thunk's callers
  use the store.

The code behaves in four ways that are easy to misread; the model follows
the code:

- A `SET_BOOKS` payload is spread over the state, so only the keys the
  response carries are replaced. A response without `items` leaves the
  previous items in place. Nothing keeps `totalItems` equal to the number of
  items. The initial state already has `totalItems` 0 and one placeholder item.
- The search button commits the pending text even when it is empty, right
  after the "enter text" info message. The query is then cleared. The effect
  does not fetch, and the last results stay on show.
- The category selector dispatches `setFilter`, not `setCategories`.
  `SET_CATEGORIES` is declared but the reducer does not handle it. The filter
  is not part of the request. When a query is set, choosing a new category
  starts a fetch whose request is the same as before.
- The loading flag and the info message live in another slice, the app
  reducer, which is not part of this model. They appear here only as
  dispatched actions.

## Model

| member | source | states |
|---|---|---|
| `BookReducer.InitialState` | src/store/book-reducer.ts:50-73 | the store starts with an empty query, filter "full", sort "relevance", categories "all", a count of 0 and exactly one placeholder item (id "1", no authors) |
| `BookReducer.Reduce` | src/store/book-reducer.ts:76-94 | each field of the next state is the value the action writes if the action writes it, else the old value. `SET_BOOKS` writes exactly the response keys present, each setter writes only its own field, and every other action (`SET_CATEGORIES` included) returns the state unchanged |
| `BookReducer.LastWriteWins` | src/store/book-reducer.ts:78-85 | an action is hidden by a later one that writes all the fields it wrote |
| `BookReducer.Idempotent` | src/store/book-reducer.ts:76-94 | dispatching the same action twice gives the state that dispatching it once gives |
| `BookReducer.DisjointActionsCommute` | src/store/book-reducer.ts:78-85 | two actions that write disjoint fields give the same state in either order (e.g. a filter change and a sort change) |
| `BookReducer.ReplayFrame` | src/store/book-reducer.ts:76-94 | after any sequence of actions, a field that none of them writes keeps its value |
| `BookReducer.ReplayInert` | src/store/book-reducer.ts:91-93 | a sequence of actions the reducer does not handle leaves the state unchanged |
| `BookReducer.ReplayAppend` | src/store/book-reducer.ts:76-94 | dispatching two sequences one after the other equals dispatching their concatenation |
| `Thunks.FetchEvents` | src/store/book-reducer.ts:126-142 | a run dispatches loading-on first and loading-off last, and no other loading action. The response is dispatched exactly once, second to last, and only on success. The "not found anything" info is dispatched exactly when the request succeeds with a missing or zero count, and then before the response. On failure, the error is handed to the error handler once, between the two loading actions. A run has exactly four actions when the count is falsy and three otherwise, so nothing else is dispatched |
| `Thunks.RequestOf` | src/store/book-reducer.ts:130-134 | the request object carries the state's `q` and `orderBy`, and nothing else |
| `Thunks.NothingFound` | src/store/book-reducer.ts:135 | `!response.data.totalItems` holds exactly when the count is missing or zero |
| `Thunks.FetchDependsOnlyOnRequest` | src/store/book-reducer.ts:127-134 | states with the same `q` and `orderBy` produce the same run: filter, key, categories and results are not sent |
| `Thunks.FetchFailureKeepsBooks` | src/store/book-reducer.ts:137-141 | after a failed request the books slice is exactly as it was, so items and count are kept |
| `Thunks.FetchSuccessAppliesResponse` | src/store/book-reducer.ts:135-136 | after a successful request the slice is the old one with the response spread over it. The items are the response's items, or the old ones if the response has none; the same holds for the count |
| `Thunks.FetchKeepsQueryFields` | src/store/book-reducer.ts:126-142 | whatever the outcome, a run keeps `q`, `key`, `filter`, `orderBy` and `categories` |
| `Thunks.Store.constructor` | src/store/book-reducer.ts:76 | the store holds the reducer's default state and nothing has been dispatched |
| `Thunks.Store.Dispatch` | src/store/book-reducer.ts:76-94 | the held state becomes the reducer's result and the action is appended to the dispatched actions |
| `Thunks.Store.FetchBooks` | src/store/book-reducer.ts:126-142 | the request carries the `q` and `orderBy` read at the start. The actions dispatched are exactly `FetchEvents`, and the new state is their fold through the reducer |
| `Header.SendHandler` | src/pages/header/Header.tsx:30-35 | the last action always commits the pending text as the query. The "enter text" info comes before it exactly when the text is empty, and nothing else is dispatched |
| `Header.KeyPressHandler` | src/pages/header/Header.tsx:37-41 | a key press dispatches exactly one commit of the pending text on Enter and nothing otherwise |
| `Header.KeyPressCommitsQuery` | src/pages/header/Header.tsx:37-41 | Enter sets the query to the pending text and changes nothing else; any other key leaves the state unchanged |
| `Header.EffectFetches` | src/pages/header/Header.tsx:25-27 | no fetch unless the query is set and the query, sort order or filter changed; a fetch whenever both hold |
| `Header.FetchDoesNotRetrigger` | src/pages/header/Header.tsx:25-27 | the state a fetch leaves behind does not start another fetch, on either outcome, because a run changes none of the effect's dependencies |
| `Header.ChangeSortHandler` | src/pages/header/Header.tsx:47-50 | an info message, then the new sort order |
| `Header.ChangeCategoryHandler` | src/pages/header/Header.tsx:52-55 | an info message, then the chosen category written as the filter |
| `Header.SendCommitsQuery` | src/pages/header/Header.tsx:25-35 | the search button changes only the query. With an empty text it clears the query and the effect starts no fetch |
| `Header.CategoryChangeKeepsRequest` | src/pages/header/Header.tsx:25-55 | a category choice changes only the filter. It triggers a fetch when the query is set and the value is new, and that fetch dispatches the same actions as one made before the choice |
| `Header.SortChangeSetsOrder` | src/pages/header/Header.tsx:47-50 | a sort choice changes only the sort order, and the next request carries it |

## Left out

- The search request (`bookApi.getBooks`): network I/O in a module that is not part of this model. Its result is the function parameter `api` returning `Success(response)` or `Failure(error)`. Each run calls it exactly once.
- The response type `BookResponse` is declared in the API module, which is not part of this model. It is modelled with the three keys a search response carries (`kind`, `totalItems`, `items`), each optional. Extra keys a response might carry at run time are not modelled.
- `errorsHandler`: its module is not part of this model. Whatever it dispatches is one opaque `HandleError(error)` action. The model assumes it dispatches no books action. Error classification and message text are not modelled.
- `setAppIsLoading` and `setAppInfo`: the app reducer is not part of this model. They are dispatched actions with no modelled state.
- Overlapping runs of the thunk and stale responses overwriting newer ones: this is a concurrency effect, and the code has no cancellation logic. Each run is modelled as atomic.
- Numbers are unbounded integers. A `NaN` or fractional count is not modelled; `!totalItems` is read as "missing or zero".
- The API key is an opaque string field. The initial state holds the placeholder `"API_KEY"` instead of the key embedded in the source, since no contract depends on its value. No request reads it, because the line that would send it is commented out.
- `fetchBooks` accepts an optional `payload` argument of query parameters and never reads it. The model has no such parameter.
- The option lists of the category and sort selectors are rendering data. The handlers take any selected value.
- The commented-out category filtering in the reducer is dead code and is not modelled.
- The header's rendering, its local pending text (`useState`) and the DOM events are not modelled. The handlers take the pending text, the key and the selected value as parameters.
