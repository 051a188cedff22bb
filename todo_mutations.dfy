/**
 * The success handlers of `useCreateTodo`, `useUpdateTodo` and `useDeleteTodo`
 * (src/hooks/useTodos.ts): after the server confirms a mutation, a fixed
 * sequence of cache writes runs. Only the single key `todoKeys.list()` is
 * patched; every key under `todoKeys.lists()` is then invalidated.
 *
 * The network call itself is an input: `Outcome` says whether it succeeded and,
 * if so, which record the server returned.
 */
module TodoMutations {
  import opened Wrappers
  import opened TodoTypes
  import opened QueryKeys
  import opened ListPatches
  import opened QueryCache

  /** How the mutation's request to the server ended. */
  datatype Outcome = Success(record: Todo) | Failure

  /** Create's success handler: patch `list()`, then invalidate `lists()`. */
  function AfterCreate(m: Store, created: Todo): Store {
    Invalidated(WithPatchedPage(m, PatchedListKey(), Prepend(created)), Lists())
  }

  /** Update's success handler: write `detail(id)`, patch `list()`, then invalidate `lists()`. */
  function AfterUpdate(m: Store, updated: Todo): Store {
    Invalidated(WithPatchedPage(WithData(m, Detail(updated.id), TodoData(updated)), PatchedListKey(), Replace(updated)), Lists())
  }

  /** Delete's success handler: patch `list()`, remove `detail(id)`, then invalidate `lists()`. */
  function AfterDelete(m: Store, deleted: Todo): Store {
    Invalidated(WithoutMatching(WithPatchedPage(m, PatchedListKey(), Remove(deleted)), Detail(deleted.id)), Lists())
  }

  method OnCreateSuccess(client: QueryClient, newTodo: Todo)
    modifies client
    ensures client.entries == AfterCreate(old(client.entries), newTodo)
  {
    client.SetQueryDataWith(PatchedListKey(), Prepend(newTodo));
    client.InvalidateQueries(Lists());
  }

  method OnUpdateSuccess(client: QueryClient, updatedTodo: Todo)
    modifies client
    ensures client.entries == AfterUpdate(old(client.entries), updatedTodo)
  {
    client.SetQueryData(Detail(updatedTodo.id), TodoData(updatedTodo));
    client.SetQueryDataWith(PatchedListKey(), Replace(updatedTodo));
    client.InvalidateQueries(Lists());
  }

  method OnDeleteSuccess(client: QueryClient, deletedTodo: Todo)
    modifies client
    ensures client.entries == AfterDelete(old(client.entries), deletedTodo)
  {
    client.SetQueryDataWith(PatchedListKey(), Remove(deletedTodo));
    client.RemoveQueries(Detail(deletedTodo.id));
    client.InvalidateQueries(Lists());
  }

  /** `useCreateTodo().mutate(...)`: the handler runs on success only; a failure leaves the cache as it was. */
  method CreateTodo(client: QueryClient, outcome: Outcome)
    modifies client
    ensures outcome.Success? ==> client.entries == AfterCreate(old(client.entries), outcome.record)
    ensures outcome.Failure? ==> client.entries == old(client.entries)
  {
    if outcome.Success? {
      OnCreateSuccess(client, outcome.record);
    }
  }

  /** `useUpdateTodo().mutate(...)` */
  method UpdateTodo(client: QueryClient, outcome: Outcome)
    modifies client
    ensures outcome.Success? ==> client.entries == AfterUpdate(old(client.entries), outcome.record)
    ensures outcome.Failure? ==> client.entries == old(client.entries)
  {
    if outcome.Success? {
      OnUpdateSuccess(client, outcome.record);
    }
  }

  /** `useDeleteTodo().mutate(...)` */
  method DeleteTodo(client: QueryClient, outcome: Outcome)
    modifies client
    ensures outcome.Success? ==> client.entries == AfterDelete(old(client.entries), outcome.record)
    ensures outcome.Failure? ==> client.entries == old(client.entries)
  {
    if outcome.Success? {
      OnDeleteSuccess(client, outcome.record);
    }
  }

  /**
   * After every handler each key under `lists()` is stale, and every other key
   * except the one the handler wrote keeps its staleness.
   */
  predicate ListsInvalidated(before: Store, after: Store, written: QueryKey)
  {
    forall k :: k in after ==>
      (Matches(Lists(), k) ==> after[k].stale) &&
      (k in before && k != written && !Matches(Lists(), k) ==> after[k].stale == before[k].stale)
  }

  /**
   * Create: the `list()` page, when cached, gains the new item in front and one
   * more in `total`; it is never created when absent; every other slot keeps
   * its data; only keys under `lists()` become stale.
   */
  lemma CreateEffect(m: Store, created: Todo)
    ensures AfterCreate(m, created).Keys == m.Keys
    ensures PageAt(m, PatchedListKey()).Some? ==>
      PageAt(AfterCreate(m, created), PatchedListKey()) == Some(CreatePatch(PageAt(m, PatchedListKey()).value, created))
    ensures forall k :: k in m && k != PatchedListKey() ==> AfterCreate(m, created)[k].data == m[k].data
    ensures ListsInvalidated(m, AfterCreate(m, created), PatchedListKey())
  {
    var p := WithPatchedPage(m, PatchedListKey(), Prepend(created));
    assert forall k :: k in m && k != PatchedListKey() ==> p[k] == m[k];
  }

  /**
   * Update: `detail(id)` holds the updated record and is fresh; the `list()`
   * page, when cached, has the record replaced by id; every other slot keeps
   * its data.
   */
  lemma UpdateEffect(m: Store, updated: Todo)
    ensures AfterUpdate(m, updated).Keys == m.Keys + {Detail(updated.id)}
    ensures AfterUpdate(m, updated)[Detail(updated.id)] == Entry(TodoData(updated), false)
    ensures PageAt(m, PatchedListKey()).Some? ==>
      PageAt(AfterUpdate(m, updated), PatchedListKey()) == Some(UpdatePatch(PageAt(m, PatchedListKey()).value, updated))
    ensures forall k :: k in m && k != PatchedListKey() && k != Detail(updated.id) ==> AfterUpdate(m, updated)[k].data == m[k].data
    ensures ListsInvalidated(m, AfterUpdate(m, updated), Detail(updated.id))
  {
    var d := Detail(updated.id);
    ListAndDetailDisjoint(updated.id, None, None);
    var w := WithData(m, d, TodoData(updated));
    var p := WithPatchedPage(w, PatchedListKey(), Replace(updated));
    assert PageAt(w, PatchedListKey()) == PageAt(m, PatchedListKey());
    assert p[d] == w[d];
    assert !Matches(Lists(), d);
  }

  /**
   * Delete: `detail(id)` is gone; the `list()` page, when cached, no longer holds
   * the id and has one less in `total`; no other slot outside `detail(id)`'s
   * prefix loses its entry or changes its data.
   */
  lemma DeleteEffect(m: Store, deleted: Todo)
    ensures Detail(deleted.id) !in AfterDelete(m, deleted)
    ensures PageAt(m, PatchedListKey()).Some? ==>
      PageAt(AfterDelete(m, deleted), PatchedListKey()) == Some(DeletePatch(PageAt(m, PatchedListKey()).value, deleted))
    ensures forall k :: k in m && !Matches(Detail(deleted.id), k) ==> k in AfterDelete(m, deleted)
    ensures forall k :: k in m && k != PatchedListKey() && !Matches(Detail(deleted.id), k) ==> AfterDelete(m, deleted)[k].data == m[k].data
    ensures ListsInvalidated(m, AfterDelete(m, deleted), PatchedListKey())
  {
    var d := Detail(deleted.id);
    ListAndDetailDisjoint(deleted.id, None, None);
    var p := WithPatchedPage(m, PatchedListKey(), Remove(deleted));
    var w := WithoutMatching(p, d);
    assert PatchedListKey() in m ==> PatchedListKey() in w;
  }

  /**
   * A page the view reads under `list(limit, skip)` with a defined `limit` or
   * `skip` keeps its data through all three handlers; it only becomes stale.
   */
  lemma ViewPageKeepsData(m: Store, limit: Option<int>, skip: Option<int>, t: Todo)
    requires limit.Some? || skip.Some?
    requires List(limit, skip) in m
    ensures AfterCreate(m, t)[List(limit, skip)] == m[List(limit, skip)].(stale := true)
    ensures AfterUpdate(m, t)[List(limit, skip)] == m[List(limit, skip)].(stale := true)
    ensures AfterDelete(m, t)[List(limit, skip)] == m[List(limit, skip)].(stale := true)
  {
    var k := List(limit, skip);
    ViewKeyIsNotPatchedKey(limit, skip);
    ListAndDetailDisjoint(t.id, limit, skip);
    CreateEffect(m, t);
    UpdateEffect(m, t);
    DeleteEffect(m, t);
  }

  /** Entries outside the `todos` family (the random to-do, for one) are untouched by every handler. */
  lemma OtherFamiliesUntouched(m: Store, k: QueryKey, t: Todo)
    requires k in m && !Matches(All, k)
    ensures AfterCreate(m, t)[k] == m[k]
    ensures AfterUpdate(m, t)[k] == m[k]
    ensures AfterDelete(m, t)[k] == m[k]
  {
    assert !Matches(Lists(), k);
    assert k != PatchedListKey() && k != Detail(t.id) && !Matches(Detail(t.id), k) by {
      assert All <= PatchedListKey() && All <= Detail(t.id);
    }
    CreateEffect(m, t);
    UpdateEffect(m, t);
    DeleteEffect(m, t);
  }

  /** The random to-do, cached under its own key, keeps its entry through every handler. */
  lemma RandomTodoUntouched(m: Store, t: Todo)
    requires RandomTodo in m
    ensures AfterCreate(m, t)[RandomTodo] == m[RandomTodo]
    ensures AfterUpdate(m, t)[RandomTodo] == m[RandomTodo]
    ensures AfterDelete(m, t)[RandomTodo] == m[RandomTodo]
  {
    assert !Matches(All, RandomTodo) by { assert RandomTodo[0] != All[0]; }
    OtherFamiliesUntouched(m, RandomTodo, t);
  }

  /** A user's list, cached under `byUser(id)`, is neither patched nor invalidated. */
  lemma ByUserUntouched(m: Store, userId: int, t: Todo)
    requires ByUser(userId) in m
    ensures AfterCreate(m, t)[ByUser(userId)] == m[ByUser(userId)]
    ensures AfterUpdate(m, t)[ByUser(userId)] == m[ByUser(userId)]
    ensures AfterDelete(m, t)[ByUser(userId)] == m[ByUser(userId)]
  {
    var k := ByUser(userId);
    assert k[1] == Name("user");
    assert k != PatchedListKey() by { assert PatchedListKey()[1] == Name("list"); }
    assert k != Detail(t.id) && !Matches(Detail(t.id), k) by { assert Detail(t.id)[1] == Name("detail"); }
    CreateEffect(m, t);
    UpdateEffect(m, t);
    DeleteEffect(m, t);
  }

  /** Every handler keeps pages under list keys and items under detail keys. */
  lemma HandlersKeepWellTyped(m: Store, t: Todo)
    requires WellTyped(m)
    ensures WellTyped(AfterCreate(m, t)) && WellTyped(AfterUpdate(m, t)) && WellTyped(AfterDelete(m, t))
  {
    var d := Detail(t.id);
    ListAndDetailDisjoint(t.id, None, None);
    OperationsKeepWellTyped(m, PatchedListKey(), Prepend(t), Lists(), t);
    OperationsKeepWellTyped(WithPatchedPage(m, PatchedListKey(), Prepend(t)), PatchedListKey(), Prepend(t), Lists(), t);
    var w := WithData(m, d, TodoData(t));
    OperationsKeepWellTyped(m, d, Replace(t), Lists(), t);
    var wp := WithPatchedPage(w, PatchedListKey(), Replace(t));
    OperationsKeepWellTyped(w, PatchedListKey(), Replace(t), Lists(), t);
    OperationsKeepWellTyped(wp, PatchedListKey(), Replace(t), Lists(), t);
    var p := WithPatchedPage(m, PatchedListKey(), Remove(t));
    OperationsKeepWellTyped(m, PatchedListKey(), Remove(t), d, t);
    OperationsKeepWellTyped(p, PatchedListKey(), Remove(t), d, t);
    OperationsKeepWellTyped(WithoutMatching(p, d), PatchedListKey(), Remove(t), Lists(), t);
  }

  /** Repeating the update handler leaves the cache as one run left it. */
  lemma UpdateHandlerIdempotent(m: Store, updated: Todo)
    ensures AfterUpdate(AfterUpdate(m, updated), updated) == AfterUpdate(m, updated)
  {
    var once := AfterUpdate(m, updated);
    var twice := AfterUpdate(once, updated);
    UpdateEffect(m, updated);
    UpdateEffect(once, updated);
    if PageAt(m, PatchedListKey()).Some? {
      UpdateIdempotent(PageAt(m, PatchedListKey()).value, updated);
    }
    forall k | k in once ensures twice[k] == once[k] {
      ListKeyShape(None, None);
      ListAndDetailDisjoint(updated.id, None, None);
      assert Matches(Lists(), PatchedListKey());
    }
  }
}
