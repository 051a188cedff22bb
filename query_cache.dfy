/**
 * The part of the query cache the mutation handlers of src/hooks/useTodos.ts
 * drive: a keyed store of entries, written with `setQueryData`, pruned with
 * `removeQueries` and marked stale with `invalidateQueries`. Each operation is
 * given as a function on the store (its specification) and as a method of the
 * `QueryClient` object that owns the store. Refetching, subscribers and timers
 * are not part of this model.
 */
module QueryCache {
  import opened Wrappers
  import opened TodoTypes
  import opened QueryKeys
  import opened ListPatches

  /** What a cache slot holds: a list page or a single item. */
  datatype CachedData = PageData(page: TodosPage) | TodoData(todo: Todo)

  /** A cache entry: its data and whether it has been invalidated. */
  datatype Entry = Entry(data: CachedData, stale: bool)

  type Store = map<QueryKey, Entry>

  /** Pages sit under list keys and single items under detail keys. */
  predicate WellTyped(m: Store) {
    forall k :: k in m ==>
      (IsListKey(k) ==> m[k].data.PageData?) && (IsDetailKey(k) ==> m[k].data.TodoData?)
  }

  /** `getQueryData(key)` for a list page: absent unless the slot holds a page. */
  function PageAt(m: Store, key: QueryKey): (r: Option<TodosPage>)
    ensures r.Some? <==> key in m && m[key].data.PageData?
    ensures r.Some? ==> r.value == m[key].data.page
  {
    if key in m && m[key].data.PageData? then Some(m[key].data.page) else None
  }

  /** `setQueryData(key, data)`: the slot now holds `data`, fresh; no other slot changes. */
  function WithData(m: Store, key: QueryKey, data: CachedData): (r: Store)
    ensures r.Keys == m.Keys + {key}
    ensures r[key] == Entry(data, false)
    ensures forall k :: k in m && k != key ==> r[k] == m[k]
  {
    m[key := Entry(data, false)]
  }

  /**
   * `setQueryData(key, updater)` with a list-page updater: when the updater
   * returns `undefined` nothing is written; otherwise the slot holds the patched
   * page, fresh. No slot is created and no other slot changes.
   */
  function WithPatchedPage(m: Store, key: QueryKey, patch: PagePatch): (r: Store)
    ensures r.Keys == m.Keys
    ensures forall k :: k in m && k != key ==> r[k] == m[k]
    ensures PageAt(m, key).None? ==> r == m
    ensures PageAt(m, key).Some? ==> r[key] == Entry(PageData(ApplyPatch(patch, PageAt(m, key).value)), false)
  {
    match Updater(patch, PageAt(m, key))
    case None => m
    case Some(page) => m[key := Entry(PageData(page), false)]
  }

  /** `removeQueries({ queryKey: filter })`: exactly the slots the filter reaches are gone. */
  function WithoutMatching(m: Store, filter: QueryKey): (r: Store)
    ensures forall k :: k in r <==> k in m && !Matches(filter, k)
    ensures forall k :: k in r ==> r[k] == m[k]
  {
    map k | k in m && !Matches(filter, k) :: m[k]
  }

  /**
   * `invalidateQueries({ queryKey: filter })`: the slots the filter reaches are
   * marked stale; every slot keeps its data, so stale data stays readable.
   */
  function Invalidated(m: Store, filter: QueryKey): (r: Store)
    ensures r.Keys == m.Keys
    ensures forall k :: k in m ==> r[k].data == m[k].data
    ensures forall k :: k in m ==> r[k].stale == (m[k].stale || Matches(filter, k))
  {
    map k | k in m :: if Matches(filter, k) then m[k].(stale := true) else m[k]
  }

  /** Each store operation keeps pages under list keys and items under detail keys. */
  lemma OperationsKeepWellTyped(m: Store, key: QueryKey, patch: PagePatch, filter: QueryKey, todo: Todo)
    requires WellTyped(m)
    ensures WellTyped(WithPatchedPage(m, key, patch))
    ensures WellTyped(WithoutMatching(m, filter))
    ensures WellTyped(Invalidated(m, filter))
    ensures !IsListKey(key) ==> WellTyped(WithData(m, key, TodoData(todo)))
  {
  }

  /** The shared query client: one object owning the store, passed to every mutation handler. */
  class QueryClient {
    var entries: Store

    constructor ()
      ensures entries == map[]
    {
      entries := map[];
    }

    method SetQueryData(key: QueryKey, data: CachedData)
      modifies this
      ensures entries == WithData(old(entries), key, data)
    {
      entries := entries[key := Entry(data, false)];
    }

    method SetQueryDataWith(key: QueryKey, patch: PagePatch)
      modifies this
      ensures entries == WithPatchedPage(old(entries), key, patch)
    {
      var next := Updater(patch, PageAt(entries, key));
      if next.Some? {
        entries := entries[key := Entry(PageData(next.value), false)];
      }
    }

    method RemoveQueries(filter: QueryKey)
      modifies this
      ensures entries == WithoutMatching(old(entries), filter)
    {
      entries := map k | k in entries && !Matches(filter, k) :: entries[k];
    }

    method InvalidateQueries(filter: QueryKey)
      modifies this
      ensures entries == Invalidated(old(entries), filter)
    {
      entries := map k | k in entries :: if Matches(filter, k) then entries[k].(stale := true) else entries[k];
    }
  }
}
