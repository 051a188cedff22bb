# Verified model of the to-do client's cache patches and pagination

The to-do client is a React front end over a remote to-do REST service. Two parts of it are deterministic logic, and this project models both in Dafny:

1. **The cache patches run after a successful mutation** (`src/hooks/useTodos.ts`).
   - The query-key factory `todoKeys` and the prefix matching the query cache uses to decide which entries a filter reaches (`QueryKeys`).
   - The pure updaters for the cached list page: create prepends and adds one to `total`, update replaces by id, and delete filters the id out and subtracts one from `total` (`ListPatches`).
   - The query cache as an object that owns a map from key to entry, with `setQueryData`, `removeQueries` and `invalidateQueries` (`QueryCache`). Each operation is also given as a function on the map.
   - The ordered write sequences of the three `onSuccess` handlers, and the `mutate` calls that run them only on success (`TodoMutations`).
2. **The pagination state machine of the list view** (`src/components/TodoList.tsx`). This covers the two state variables `limit` and `currentPage`, the Previous and Next handlers, and the page-size selector. It also covers the derived `skip`, `totalPages`, the "Showing a to b of n" range and the button guards (`Pagination`).

The patches write only to the single key `todoKeys.list()`, where both `limit` and `skip` are `undefined`. The view reads keys such as `list(30, 0)`. So the model is a keyed store in which exactly one key is patched. `ViewPageKeepsData` proves that a page cached under a key with a defined `limit` or `skip` keeps its data through every handler and only becomes stale.

Three consequences of the code are stated as lemmas:
- The create patch prepends however full the page already is (`CreateOverfillsFullPage`).
- Only `list()` is patched, never the pages the view reads (`ViewPageKeepsData`).
- The delete patch lowers `total` even when the deleted item was not on the cached page (`DeleteOffPageStillDecrements`).

## Model

| member | source | states |
|---|---|---|
| QueryKeys.Lists | src/hooks/useTodos.ts:7-8 | `lists()` is two parts long and has `all` as a prefix |
| QueryKeys.List | src/hooks/useTodos.ts:9 | `list(l, s)` is three parts long, has `lists()` and `all` as prefixes, and ends with the `{limit, skip}` part |
| QueryKeys.Details | src/hooks/useTodos.ts:10 | `details()` has `all` as a prefix; it is not `lists()` and neither has the other as a prefix |
| QueryKeys.Detail | src/hooks/useTodos.ts:11 | `detail(id)` has `details()` as a prefix and ends with the id |
| QueryKeys.ByUser | src/hooks/useTodos.ts:12 | `byUser(id)` is under `all` but under neither `lists()` nor `details()` |
| QueryKeys.ListKeyShape | src/hooks/useTodos.ts:8-10 | every list key is list-shaped, not detail-shaped, and does not have `details()` as a prefix |
| QueryKeys.ListAndDetailDisjoint | src/hooks/useTodos.ts:9-11 | `lists()` never reaches a detail key, and `detail(id)` never reaches a list key |
| QueryKeys.ListKeyInjective | src/hooks/useTodos.ts:9 | two list keys are the same cache slot exactly when their `limit` and `skip` agree |
| QueryKeys.DetailMatchesOnlyItself | src/hooks/useTodos.ts:11 | `detail(a)` reaches `detail(b)` exactly when `a == b` |
| QueryKeys.ViewKeyIsNotPatchedKey | src/components/TodoList.tsx:11 | a key with a defined `limit` or `skip`, like the one the view reads, differs from `list()` |
| ListPatches.ReplaceById | src/hooks/useTodos.ts:81-83 | the length is kept; every item with the updated id becomes the updated item; every other item stays unchanged at its position |
| ListPatches.RemoveById | src/hooks/useTodos.ts:105 | no survivor carries the id; every item without the id survives with exactly as many copies as before; survivors form an order-preserving subsequence; a list without the id is returned as is |
| ListPatches.CreatePatch | src/hooks/useTodos.ts:52-56 | the new item is at index 0 and the old items follow in order; length and `total` grow by exactly one; `skip` and `limit` are kept |
| ListPatches.UpdatePatch | src/hooks/useTodos.ts:79-84 | every item with the updated id becomes the updated item; every other item stays unchanged at its position; length, ids by position, `total`, `skip` and `limit` are kept; if the id was on the page, the updated item now is |
| ListPatches.DeletePatch | src/hooks/useTodos.ts:103-107 | the items are the page's items filtered by id; no item with the id remains; every item without the id keeps all its copies; survivors keep their relative order; `total` drops by exactly one |
| ListPatches.Updater | src/hooks/useTodos.ts:50-51 | an absent page stays absent and a present page stays present, holding the patched page |
| ListPatches.ReplaceIdempotent | src/hooks/useTodos.ts:81-83 | replacing by id twice gives the same list as replacing once |
| ListPatches.UpdateIdempotent | src/hooks/useTodos.ts:77-85 | the update patch applied twice equals the update patch applied once |
| ListPatches.ReplaceAbsentIsIdentity | src/hooks/useTodos.ts:81-83 | updating an id that is not on the page leaves the items unchanged |
| ListPatches.RemoveDistributes | src/hooks/useTodos.ts:105 | filtering a concatenation is the concatenation of the filtered parts, so survivors keep their relative order |
| ListPatches.RemoveKeepsDuplicates | src/hooks/useTodos.ts:105 | filtering `[a, d, a]` by `d`'s id keeps both copies of `a`, and so does the delete patch |
| ListPatches.RemoveIdempotent | src/hooks/useTodos.ts:105 | filtering the same id twice removes nothing more |
| ListPatches.DeleteUndoesCreate | src/hooks/useTodos.ts:101-108 | deleting a just-created item whose id was not on the page restores the page, `total` included |
| ListPatches.DeleteOffPageStillDecrements | src/hooks/useTodos.ts:106 | when the id is not on the page, the items are unchanged but `total` still drops by one |
| ListPatches.CreateOverfillsFullPage | src/hooks/useTodos.ts:54 | creating on a page that holds `limit` items leaves `limit + 1` items |
| QueryCache.PageAt | src/hooks/useTodos.ts:51 | what the updater receives: a page exactly when the slot holds a page, and nothing when the slot is absent |
| QueryCache.WithData | src/hooks/useTodos.ts:74 | setting data writes that slot, fresh, and leaves every other slot unchanged |
| QueryCache.WithPatchedPage | src/hooks/useTodos.ts:50-57 | the set of keys is unchanged; an absent page leaves the store unchanged; a present page is replaced by the patched page, fresh; every other slot is unchanged |
| QueryCache.WithoutMatching | src/hooks/useTodos.ts:111 | exactly the slots the filter reaches are removed; the others keep their entries |
| QueryCache.Invalidated | src/hooks/useTodos.ts:60 | the keys and the data are unchanged, so stale data stays readable; a slot is stale afterwards exactly when it was stale before or the filter reaches it |
| QueryCache.OperationsKeepWellTyped | src/hooks/useTodos.ts:50-60 | every store operation keeps pages under list keys and items under detail keys |
| QueryCache.QueryClient.constructor | src/hooks/useTodos.ts:44 | the client starts with an empty cache |
| QueryCache.QueryClient.SetQueryData | src/hooks/useTodos.ts:74 | the new cache is `WithData` of the old one |
| QueryCache.QueryClient.SetQueryDataWith | src/hooks/useTodos.ts:77-85 | the new cache is `WithPatchedPage` of the old one |
| QueryCache.QueryClient.RemoveQueries | src/hooks/useTodos.ts:111 | the new cache is `WithoutMatching` of the old one |
| QueryCache.QueryClient.InvalidateQueries | src/hooks/useTodos.ts:88 | the new cache is `Invalidated` of the old one |
| TodoMutations.OnCreateSuccess | src/hooks/useTodos.ts:48-61 | the cache after the handler is: patch `list()` with the created item, then invalidate `lists()` |
| TodoMutations.OnUpdateSuccess | src/hooks/useTodos.ts:72-89 | the cache after the handler is: write `detail(id)`, patch `list()`, then invalidate `lists()` |
| TodoMutations.OnDeleteSuccess | src/hooks/useTodos.ts:99-115 | the cache after the handler is: patch `list()`, remove `detail(id)`, then invalidate `lists()` |
| TodoMutations.CreateTodo | src/hooks/useTodos.ts:46-62 | on success the create handler's effect; on failure the cache is exactly as before |
| TodoMutations.UpdateTodo | src/hooks/useTodos.ts:69-90 | on success the update handler's effect; on failure the cache is exactly as before |
| TodoMutations.DeleteTodo | src/hooks/useTodos.ts:97-116 | on success the delete handler's effect; on failure the cache is exactly as before |
| TodoMutations.CreateEffect | src/hooks/useTodos.ts:48-61 | no key appears or disappears; a cached `list()` page becomes the create patch of itself; every other slot keeps its data; keys under `lists()` become stale and the others keep their staleness |
| TodoMutations.UpdateEffect | src/hooks/useTodos.ts:72-89 | `detail(id)` holds the updated item, fresh; a cached `list()` page becomes the update patch of itself; every other slot keeps its data; keys under `lists()` become stale |
| TodoMutations.DeleteEffect | src/hooks/useTodos.ts:99-115 | `detail(id)` is absent; a cached `list()` page becomes the delete patch of itself; slots outside `detail(id)` are kept and, except `list()`, keep their data; keys under `lists()` become stale |
| TodoMutations.ViewPageKeepsData | src/hooks/useTodos.ts:50-60 | a page under `list(l, s)` with a defined `limit` or `skip` keeps its data through every handler and only turns stale |
| TodoMutations.OtherFamiliesUntouched | src/hooks/useTodos.ts:122 | an entry outside the `todos` family, such as the random to-do, keeps its entry through every handler |
| TodoMutations.RandomTodoUntouched | src/hooks/useTodos.ts:122 | the random to-do's entry under `['randomTodo']` is the same after every handler |
| TodoMutations.ByUserUntouched | src/hooks/useTodos.ts:36 | a user's list under `byUser(id)` keeps its entry through every handler, with neither a patch nor an invalidation |
| TodoMutations.HandlersKeepWellTyped | src/hooks/useTodos.ts:48-115 | every handler keeps pages under list keys and items under detail keys |
| TodoMutations.UpdateHandlerIdempotent | src/hooks/useTodos.ts:72-89 | running the update handler twice with the same record leaves the cache as one run did |
| Pagination.CeilDiv | src/components/TodoList.tsx:23 | the result is the least integer `r` with `a <= r * b` |
| Pagination.Skip | src/components/TodoList.tsx:9 | `skip` is a non-negative multiple of `limit` whose quotient by `limit` is `currentPage` |
| Pagination.TotalPages | src/components/TodoList.tsx:23 | 0 without data; otherwise the least `r` with `total <= r * limit` |
| Pagination.Previous | src/components/TodoList.tsx:13-15 | the page never goes negative: from page 0 or below it becomes 0, otherwise it drops by one; `limit` is kept |
| Pagination.Next | src/components/TodoList.tsx:17-21 | the page advances by one exactly when data is present and `skip + limit < total`, and is unchanged otherwise |
| Pagination.ChooseLimit | src/components/TodoList.tsx:61-64 | the chosen option becomes `limit`, the page resets so that `skip` is 0, and the state stays valid |
| Pagination.ShownRange | src/components/TodoList.tsx:119 | the range starts at `skip + 1`; its end is at most `total` and at most `skip + limit`, and is one of the two; it is non-empty when `skip < total` and spans at most `limit` items |
| Pagination.StepKeepsValid | src/components/TodoList.tsx:61-70 | every step keeps `limit` among {10, 20, 30, 50} and the page non-negative |
| Pagination.StepKeepsInRange | src/components/TodoList.tsx:13-21 | every step keeps the page either first or starting inside the collection |
| Pagination.RunKeepsInRange | src/components/TodoList.tsx:13-21 | any run of steps keeps the page either first or starting inside the collection |
| Pagination.InRangePageNumberBounded | src/components/TodoList.tsx:23-24 | such a page has a page number between 1 and `totalPages` when the collection is non-empty |
| Pagination.ReachablePagesValid | src/components/TodoList.tsx:130 | from the initial state, every reachable page shows "Page n of m" with `n <= m` when `total > 0` |
| Pagination.NextDisabledIffNoOp | src/components/TodoList.tsx:134 | Next is disabled exactly when `handleNextPage` would not change the state |
| Pagination.PreviousDisabledIffNoOp | src/components/TodoList.tsx:124 | Previous is disabled exactly when `handlePreviousPage` would not change the state |
| Pagination.ControlsIffSeveralPages | src/components/TodoList.tsx:115 | the controls are shown exactly when `totalPages >= 2` |
| Pagination.NextWalkExample | src/components/TodoList.tsx:17-21 | with `limit = 10` and `total = 25`, repeated Next gives `skip` 0, 10, 20, and then stops |
| Pagination.TotalPagesExample | src/components/TodoList.tsx:23 | `total = 25`, `limit = 10` gives 3 pages |
| Pagination.Pager.constructor | src/components/TodoList.tsx:7-8 | the view starts with `limit` 30 on page 0 |
| Pagination.Pager.HandlePreviousPage | src/components/TodoList.tsx:13-15 | the new state is `Previous` of the old one and stays valid |
| Pagination.Pager.HandleNextPage | src/components/TodoList.tsx:17-21 | the new state is `Next` of the old one for the loaded data and stays valid |
| Pagination.Pager.HandleLimitChange | src/components/TodoList.tsx:61-64 | the new state is `ChooseLimit` of the old one and stays valid |

## Left out

- src/services/todoService.ts: every call is a network round trip. A mutation's request is the input `Outcome`, either success with the returned record or failure. Only success runs the cache patches.
- The query cache's own behaviour: request deduplication, the five-minute staleness window, the single retry, background refetching after invalidation, subscriber notification and timestamps. `invalidateQueries` is modelled only as "mark the reached entries stale and keep their data".
- The read hooks `useTodos`, `useTodo`, `useTodosByUser` and `useRandomTodo`: they only connect a key to a network fetch. Their keys are modelled.
- The partial matching of object parts inside filter keys is modelled as element equality. No filter used by the handlers contains an object part.
- QueryCache.WithPatchedPage: a slot under `list()` that held a single item instead of a page would make the JavaScript updater throw. The model leaves the store unchanged in that case. `WellTyped` rules it out, and every handler preserves `WellTyped`.
- Pagination.ReachablePagesValid: `total` is held fixed over a run of steps. A refetch that shrinks the collection while the view sits on a late page is not modelled.
- src/components/TodoForm.tsx and src/components/TodoItem.tsx: these only wire events. They trim the new item's text and send the flipped `completed` flag, and the resulting server record enters the model as the `Outcome`.
- The loading and error branches of the view, the markup and the styling.
- JavaScript floating-point numbers: counts, ids and page indices are integers, and `Math.ceil` of a quotient is integer ceiling division.
