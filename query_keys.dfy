/**
 * The query-key factory `todoKeys` (src/hooks/useTodos.ts) and the way the query
 * cache matches a filter key against the keys of its entries.
 *
 * A key is an array of parts: names (`'todos'`, `'list'`, ...), numbers (ids)
 * and the `{ limit, skip }` object of a list key, whose fields may be
 * `undefined` (modelled as `None`). The cache hashes a key structurally and
 * drops `undefined` fields, so `list()` and `list(undefined, undefined)` are the
 * same slot, and `list(30, 0)` is another one.
 */
module QueryKeys {
  import opened Wrappers

  datatype KeyPart =
    | Name(name: string)
    | Num(n: int)
    | ListParams(limit: Option<int>, skip: Option<int>)

  type QueryKey = seq<KeyPart>

  /**
   * A filter key reaches a cached key when it is a prefix of it (the cache's
   * partial matching; the filters used here hold no object parts).
   */
  predicate Matches(filter: QueryKey, key: QueryKey) {
    filter <= key
  }

  /** `todoKeys.all` */
  const All: QueryKey := [Name("todos")]

  /** `todoKeys.lists()` */
  function Lists(): (k: QueryKey)
    ensures |k| == 2 && Matches(All, k)
  {
    All + [Name("list")]
  }

  /** `todoKeys.list(limit, skip)` */
  function List(limit: Option<int>, skip: Option<int>): (k: QueryKey)
    ensures |k| == 3 && Matches(Lists(), k) && Matches(All, k)
    ensures k[2] == ListParams(limit, skip)
  {
    Lists() + [ListParams(limit, skip)]
  }

  /** `todoKeys.details()` */
  function Details(): (k: QueryKey)
    ensures |k| == 2 && Matches(All, k)
    ensures !Matches(Lists(), k) && !Matches(k, Lists())
  {
    var k := All + [Name("detail")];
    assert k[1] == Name("detail") && Lists()[1] == Name("list");
    k
  }

  /** `todoKeys.detail(id)` */
  function Detail(id: int): (k: QueryKey)
    ensures |k| == 3 && Matches(Details(), k) && k[2] == Num(id)
  {
    Details() + [Num(id)]
  }

  /** `todoKeys.byUser(userId)` */
  function ByUser(userId: int): (k: QueryKey)
    ensures |k| == 3 && Matches(All, k) && k[2] == Num(userId)
    ensures !Matches(Lists(), k) && !Matches(Details(), k)
  {
    var k := All + [Name("user"), Num(userId)];
    assert k[1] == Name("user") && Lists()[1] == Name("list") && Details()[1] == Name("detail");
    k
  }

  /** The key of the manually fetched random to-do, outside `todoKeys`. */
  const RandomTodo: QueryKey := [Name("randomTodo")]

  /** The only key the list patches write: `todoKeys.list()`, both fields undefined. */
  function PatchedListKey(): QueryKey {
    List(None, None)
  }

  /** A key of the shape `list(limit, skip)` builds. */
  predicate IsListKey(k: QueryKey) {
    |k| == 3 && k[..2] == Lists() && k[2].ListParams?
  }

  /** A key of the shape `detail(id)` builds. */
  predicate IsDetailKey(k: QueryKey) {
    |k| == 3 && k[..2] == Details() && k[2].Num?
  }

  /** Every list key is list-shaped, not detail-shaped, and does not lie under `details()`. */
  lemma ListKeyShape(limit: Option<int>, skip: Option<int>)
    ensures IsListKey(List(limit, skip)) && !IsDetailKey(List(limit, skip))
    ensures !Matches(Details(), List(limit, skip))
  {
    assert List(limit, skip)[..2] == Lists();
    assert List(limit, skip)[1] == Name("list");
  }

  /** Invalidating `lists()` never reaches a detail key, and removing `detail(id)` never reaches a list key. */
  lemma ListAndDetailDisjoint(id: int, limit: Option<int>, skip: Option<int>)
    ensures !Matches(Lists(), Detail(id))
    ensures !Matches(Detail(id), List(limit, skip))
    ensures IsDetailKey(Detail(id)) && !IsListKey(Detail(id))
  {
    assert Detail(id)[1] == Name("detail");
    assert List(limit, skip)[1] == Name("list");
    assert Detail(id)[..2] == Details();
  }

  /** Structural key equality: two list keys are the same slot exactly when their fields agree. */
  lemma ListKeyInjective(l1: Option<int>, s1: Option<int>, l2: Option<int>, s2: Option<int>)
    ensures List(l1, s1) == List(l2, s2) <==> l1 == l2 && s1 == s2
  {
    if List(l1, s1) == List(l2, s2) {
      assert List(l1, s1)[2] == List(l2, s2)[2];
    }
  }

  /** Removing `detail(id)` reaches `detail(other)` only when the ids agree. */
  lemma DetailMatchesOnlyItself(id: int, other: int)
    ensures Matches(Detail(id), Detail(other)) <==> id == other
  {
    if Matches(Detail(id), Detail(other)) {
      assert Detail(id)[2] == Detail(other)[2];
    }
  }

  /** A page key the view reads, with a defined `limit` or `skip`, is not the key the patches write. */
  lemma ViewKeyIsNotPatchedKey(limit: Option<int>, skip: Option<int>)
    requires limit.Some? || skip.Some?
    ensures List(limit, skip) != PatchedListKey()
  {
    ListKeyInjective(limit, skip, None, None);
  }
}
