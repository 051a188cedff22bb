/**
 * The pure updaters each mutation's success handler passes to the cache for the
 * list page (src/hooks/useTodos.ts): create puts the new item first, update
 * replaces items by id, delete filters the id out. Each updater leaves an
 * absent page absent.
 */
module ListPatches {
  import opened Wrappers
  import opened TodoTypes

  /** `ys` is obtained from `xs` by dropping some elements, keeping the order of the rest. */
  ghost predicate IsSubsequence(ys: seq<Todo>, xs: seq<Todo>)
    decreases |xs|
  {
    ys == [] || (xs != [] && ((ys[0] == xs[0] && IsSubsequence(ys[1..], xs[1..])) || IsSubsequence(ys, xs[1..])))
  }

  /** How many copies of `t` the list holds. */
  function Occurrences(todos: seq<Todo>, t: Todo): nat
  {
    if todos == [] then 0 else (if todos[0] == t then 1 else 0) + Occurrences(todos[1..], t)
  }

  /** `todos.map(todo => todo.id === updated.id ? updated : todo)` */
  function ReplaceById(todos: seq<Todo>, updated: Todo): (r: seq<Todo>)
    ensures |r| == |todos|
    ensures forall i :: 0 <= i < |todos| && todos[i].id == updated.id ==> r[i] == updated
    ensures forall i :: 0 <= i < |todos| && todos[i].id != updated.id ==> r[i] == todos[i]
  {
    if todos == [] then []
    else [if todos[0].id == updated.id then updated else todos[0]] + ReplaceById(todos[1..], updated)
  }

  /** `todos.filter(todo => todo.id !== id)` */
  function RemoveById(todos: seq<Todo>, id: int): (r: seq<Todo>)
    ensures |r| <= |todos|
    ensures forall i :: 0 <= i < |r| ==> r[i].id != id && r[i] in todos
    ensures forall t :: t in todos && t.id != id ==> t in r
    ensures !HasId(todos, id) ==> r == todos
    ensures IsSubsequence(r, todos)
    ensures forall t :: Occurrences(r, t) == if t.id == id then 0 else Occurrences(todos, t)
  {
    if todos == [] then []
    else if todos[0].id == id then RemoveById(todos[1..], id)
    else [todos[0]] + RemoveById(todos[1..], id)
  }

  /** The edit each mutation applies to the cached list page. */
  datatype PagePatch =
    | Prepend(created: Todo)
    | Replace(updated: Todo)
    | Remove(deleted: Todo)

  /** Create: the new item goes first and `total` grows by one; the window is kept. */
  function CreatePatch(page: TodosPage, created: Todo): (r: TodosPage)
    ensures |r.todos| == |page.todos| + 1
    ensures r.todos[0] == created && r.todos[1..] == page.todos
    ensures r.total == page.total + 1 && r.skip == page.skip && r.limit == page.limit
  {
    page.(todos := [created] + page.todos, total := page.total + 1)
  }

  /** Update: every item with the updated id is replaced; length, `total` and the window are kept. */
  function UpdatePatch(page: TodosPage, updated: Todo): (r: TodosPage)
    ensures |r.todos| == |page.todos| && Ids(r.todos) == Ids(page.todos)
    ensures r.total == page.total && r.skip == page.skip && r.limit == page.limit
    ensures forall i :: 0 <= i < |page.todos| && page.todos[i].id == updated.id ==> r.todos[i] == updated
    ensures forall i :: 0 <= i < |page.todos| && page.todos[i].id != updated.id ==> r.todos[i] == page.todos[i]
    ensures HasId(page.todos, updated.id) ==> updated in r.todos
  {
    page.(todos := ReplaceById(page.todos, updated))
  }

  /** Delete: the id disappears, survivors keep their order, and `total` drops by one unconditionally. */
  function DeletePatch(page: TodosPage, deleted: Todo): (r: TodosPage)
    ensures !HasId(r.todos, deleted.id)
    ensures IsSubsequence(r.todos, page.todos)
    ensures forall t :: Occurrences(r.todos, t) == if t.id == deleted.id then 0 else Occurrences(page.todos, t)
    ensures r.todos == RemoveById(page.todos, deleted.id)
    ensures r.total == page.total - 1 && r.skip == page.skip && r.limit == page.limit
  {
    page.(todos := RemoveById(page.todos, deleted.id), total := page.total - 1)
  }

  function ApplyPatch(patch: PagePatch, page: TodosPage): TodosPage {
    match patch
    case Prepend(t) => CreatePatch(page, t)
    case Replace(t) => UpdatePatch(page, t)
    case Remove(t) => DeletePatch(page, t)
  }

  /**
   * The updater lambda: `if (!oldData) return oldData; return { ...oldData, ... }`.
   * It never turns an absent page into a present one, nor the reverse.
   */
  function Updater(patch: PagePatch, oldData: Option<TodosPage>): (r: Option<TodosPage>)
    ensures r.None? <==> oldData.None?
    ensures r.Some? ==> r.value == ApplyPatch(patch, oldData.value)
  {
    match oldData
    case None => None
    case Some(page) => Some(ApplyPatch(patch, page))
  }

  /** Applying the update patch a second time changes nothing. */
  lemma {:induction false} ReplaceIdempotent(todos: seq<Todo>, updated: Todo)
    ensures ReplaceById(ReplaceById(todos, updated), updated) == ReplaceById(todos, updated)
  {
    if todos != [] {
      ReplaceIdempotent(todos[1..], updated);
    }
  }

  lemma UpdateIdempotent(page: TodosPage, updated: Todo)
    ensures UpdatePatch(UpdatePatch(page, updated), updated) == UpdatePatch(page, updated)
  {
    ReplaceIdempotent(page.todos, updated);
  }

  /** Updating with an id that is not on the page leaves the page exactly as it was. */
  lemma {:induction false} ReplaceAbsentIsIdentity(todos: seq<Todo>, updated: Todo)
    requires !HasId(todos, updated.id)
    ensures ReplaceById(todos, updated) == todos
  {
    if todos != [] {
      assert todos[0].id != updated.id;
      assert !HasId(todos[1..], updated.id) by {
        forall i | 0 <= i < |todos[1..]| ensures todos[1..][i].id != updated.id {
          assert todos[1..][i] == todos[i + 1];
        }
      }
      ReplaceAbsentIsIdentity(todos[1..], updated);
    }
  }

  /** One step of the filter: the head item is dropped exactly when it carries the id. */
  lemma RemoveCons(x: Todo, rest: seq<Todo>, id: int)
    ensures RemoveById([x] + rest, id) == if x.id == id then RemoveById(rest, id) else [x] + RemoveById(rest, id)
  {
    assert ([x] + rest)[0] == x && ([x] + rest)[1..] == rest;
  }

  /** Concatenation after a single head item is associative. */
  lemma ConsAssoc(x: Todo, a: seq<Todo>, b: seq<Todo>)
    ensures [x] + (a + b) == ([x] + a) + b
  {
  }

  /** The inductive step of `RemoveDistributes`: a head item in front of the first list. */
  lemma RemoveDistributesStep(x: Todo, tail: seq<Todo>, ys: seq<Todo>, id: int)
    requires RemoveById(tail + ys, id) == RemoveById(tail, id) + RemoveById(ys, id)
    ensures RemoveById(([x] + tail) + ys, id) == RemoveById([x] + tail, id) + RemoveById(ys, id)
  {
    ConsAssoc(x, tail, ys);
    RemoveCons(x, tail + ys, id);
    RemoveCons(x, tail, id);
    ConsAssoc(x, RemoveById(tail, id), RemoveById(ys, id));
  }

  /** Filtering distributes over concatenation, which pins down that survivors keep their relative order. */
  lemma {:induction false} RemoveDistributes(xs: seq<Todo>, ys: seq<Todo>, id: int)
    ensures RemoveById(xs + ys, id) == RemoveById(xs, id) + RemoveById(ys, id)
  {
    if xs == [] {
      assert xs + ys == ys;
    } else {
      RemoveDistributes(xs[1..], ys, id);
      RemoveDistributesStep(xs[0], xs[1..], ys, id);
      assert [xs[0]] + xs[1..] == xs;
    }
  }

  /** Every copy of a surviving item is kept: `[a, d, a]` without `d`'s id is `[a, a]`. */
  lemma RemoveKeepsDuplicates(a: Todo, d: Todo)
    requires a.id != d.id
    ensures RemoveById([a, d, a], d.id) == [a, a]
    ensures DeletePatch(TodosPage([a, d, a], 3, 0, 30), d).todos == [a, a]
  {
    RemoveCons(a, [d, a], d.id);
    RemoveCons(d, [a], d.id);
    RemoveCons(a, [], d.id);
    assert [a, d, a] == [a] + [d, a] && [d, a] == [d] + [a] && [a] == [a] + [];
  }

  /** Filtering the same id a second time removes nothing more. */
  lemma RemoveIdempotent(todos: seq<Todo>, id: int)
    ensures RemoveById(RemoveById(todos, id), id) == RemoveById(todos, id)
  {
  }

  /** Delete undoes create: removing the created item restores the page, `total` included. */
  lemma DeleteUndoesCreate(page: TodosPage, created: Todo)
    requires !HasId(page.todos, created.id)
    ensures DeletePatch(CreatePatch(page, created), created) == page
  {
    var grown := CreatePatch(page, created).todos;
    assert grown == [created] + page.todos;
    assert grown[1..] == page.todos;
  }

  /**
   * The delete patch decrements `total` even when the deleted item is not on the
   * cached page: the items stay as they are and `total` no longer counts them.
   */
  lemma DeleteOffPageStillDecrements(page: TodosPage, deleted: Todo)
    requires !HasId(page.todos, deleted.id)
    ensures DeletePatch(page, deleted).todos == page.todos
    ensures DeletePatch(page, deleted).total == page.total - 1
  {
  }

  /** The create patch does not respect the page size: a full page grows past `limit`. */
  lemma CreateOverfillsFullPage(page: TodosPage, created: Todo)
    requires |page.todos| == page.limit
    ensures |CreatePatch(page, created).todos| == page.limit + 1
  {
  }
}
