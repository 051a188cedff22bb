/**
 * The records the remote to-do service returns (src/types/todo.ts),
 * with JavaScript numbers modelled as integers.
 */
module TodoTypes {
  /** One to-do item; `id` is assigned by the server. */
  datatype Todo = Todo(id: int, todo: string, completed: bool, userId: int)

  /**
   * One page of the list query: `todos` is the page itself, `total` the size of
   * the whole collection on the server, `skip` and `limit` the window asked for.
   */
  datatype TodosPage = TodosPage(todos: seq<Todo>, total: int, skip: int, limit: int)

  /** Some item of `todos` carries `id`. */
  predicate HasId(todos: seq<Todo>, id: int) {
    exists i :: 0 <= i < |todos| && todos[i].id == id
  }

  /** The ids of `todos`, position by position. */
  function Ids(todos: seq<Todo>): (ids: seq<int>)
    ensures |ids| == |todos|
    ensures forall i :: 0 <= i < |todos| ==> ids[i] == todos[i].id
  {
    seq(|todos|, i requires 0 <= i < |todos| => todos[i].id)
  }
}
