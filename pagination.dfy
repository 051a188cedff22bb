/**
 * The pagination of the to-do list view (src/components/TodoList.tsx): two
 * pieces of state, the page size `limit` and the zero-based `currentPage`,
 * changed by the Previous and Next buttons and by the page-size selector, and
 * the values the view derives from them and from the loaded page.
 *
 * The pure functions below specify each step; the `Pager` class holds the two
 * state variables and its methods are proved against those functions.
 */
module Pagination {
  import opened Wrappers
  import opened TodoTypes

  /** The options of the page-size selector. */
  const PageSizes: set<int> := {10, 20, 30, 50}

  /** The page size the view starts with. */
  const DefaultLimit: int := 30

  datatype PagerState = PagerState(limit: int, currentPage: int)

  predicate ValidState(s: PagerState) {
    s.limit in PageSizes && s.currentPage >= 0
  }

  const Initial: PagerState := PagerState(DefaultLimit, 0)

  /** `Math.ceil(a / b)` for integers and a positive divisor. */
  function CeilDiv(a: int, b: int): (r: int)
    requires b > 0
    ensures (r - 1) * b < a <= r * b
  {
    var q := (-a) / b;
    assert q * b <= -a < q * b + b;
    assert -q * b == -(q * b);
    -q
  }

  /** `skip = currentPage * limit`: the number of items before the page. */
  function Skip(s: PagerState): (r: int)
    requires ValidState(s)
    ensures r >= 0 && r % s.limit == 0 && r / s.limit == s.currentPage
  {
    s.currentPage * s.limit
  }

  /** `totalPages`: the ceiling of `total / limit`, or 0 while no page is loaded. */
  function TotalPages(s: PagerState, data: Option<TodosPage>): (r: int)
    requires ValidState(s)
    ensures data.None? ==> r == 0
    ensures data.Some? ==> (r - 1) * s.limit < data.value.total <= r * s.limit
  {
    if data.Some? then CeilDiv(data.value.total, s.limit) else 0
  }

  /** `handlePreviousPage`: `Math.max(0, prev - 1)`. */
  function Previous(s: PagerState): (r: PagerState)
    ensures r.limit == s.limit && r.currentPage >= 0
    ensures s.currentPage >= 1 ==> r.currentPage == s.currentPage - 1
    ensures s.currentPage <= 0 ==> r.currentPage == 0
  {
    s.(currentPage := if s.currentPage - 1 > 0 then s.currentPage - 1 else 0)
  }

  /** The guard of `handleNextPage`: a page is loaded and items remain past this page. */
  predicate CanAdvance(s: PagerState, data: Option<TodosPage>) {
    data.Some? && s.currentPage * s.limit + s.limit < data.value.total
  }

  /** `handleNextPage`: one page on when `CanAdvance`, otherwise no change. */
  function Next(s: PagerState, data: Option<TodosPage>): (r: PagerState)
    ensures r.limit == s.limit
    ensures r.currentPage == s.currentPage + 1 <==> CanAdvance(s, data)
    ensures r.currentPage == s.currentPage <==> !CanAdvance(s, data)
  {
    if CanAdvance(s, data) then s.(currentPage := s.currentPage + 1) else s
  }

  /** The selector's `onChange`: take the chosen size and go back to the first page. */
  function ChooseLimit(s: PagerState, size: int): (r: PagerState)
    requires size in PageSizes
    ensures ValidState(r) && r.limit == size && Skip(r) == 0
  {
    PagerState(size, 0)
  }

  /** The pagination controls are rendered only for a loaded page with more items than fit on one page. */
  predicate ShowsControls(s: PagerState, data: Option<TodosPage>) {
    data.Some? && data.value.total > s.limit
  }

  /** `disabled={currentPage === 0}` on Previous. */
  predicate PreviousDisabled(s: PagerState) {
    s.currentPage == 0
  }

  /** `disabled={skip + limit >= data.total}` on Next; rendered only with a loaded page. */
  predicate NextDisabled(s: PagerState, total: int)
    requires ValidState(s)
  {
    Skip(s) + s.limit >= total
  }

  /** The numbers in "Showing {from} to {to} of {total} results". */
  datatype Range = Range(from: int, to: int)

  function ShownRange(s: PagerState, total: int): (r: Range)
    requires ValidState(s)
    ensures r.from == Skip(s) + 1
    ensures r.to <= total && r.to <= Skip(s) + s.limit
    ensures r.to == total || r.to == Skip(s) + s.limit
    ensures Skip(s) < total ==> r.from <= r.to
    ensures r.to - r.from + 1 <= s.limit
  {
    var skip := Skip(s);
    Range(skip + 1, if skip + s.limit < total then skip + s.limit else total)
  }

  /** One user action on the pagination controls. */
  datatype Event = PreviousClicked | NextClicked | LimitChosen(size: int)

  predicate ValidEvent(e: Event) {
    e.LimitChosen? ==> e.size in PageSizes
  }

  function Step(s: PagerState, e: Event, data: Option<TodosPage>): PagerState
    requires ValidEvent(e)
  {
    match e
    case PreviousClicked => Previous(s)
    case NextClicked => Next(s, data)
    case LimitChosen(size) => ChooseLimit(s, size)
  }

  /** The state after a run of events, with the same page loaded throughout. */
  function Run(s: PagerState, events: seq<Event>, data: Option<TodosPage>): PagerState
    requires forall i :: 0 <= i < |events| ==> ValidEvent(events[i])
    decreases |events|
  {
    if events == [] then s else Run(Step(s, events[0], data), events[1..], data)
  }

  /** Every step keeps the page size one of the options and the page non-negative. */
  lemma StepKeepsValid(s: PagerState, e: Event, data: Option<TodosPage>)
    requires ValidState(s) && ValidEvent(e)
    ensures ValidState(Step(s, e, data))
  {
  }

  /** The state holds a page that starts inside the collection, or is the first page. */
  predicate InRange(s: PagerState, data: Option<TodosPage>) {
    ValidState(s) && (s.currentPage == 0 || (data.Some? && s.currentPage * s.limit < data.value.total))
  }

  lemma StepKeepsInRange(s: PagerState, e: Event, data: Option<TodosPage>)
    requires InRange(s, data) && ValidEvent(e)
    ensures InRange(Step(s, e, data), data)
  {
    var p, l := s.currentPage, s.limit;
    match e
    case PreviousClicked =>
      if p > 1 {
        assert (p - 1) * l == p * l - l;
      }
    case NextClicked =>
      if CanAdvance(s, data) {
        assert (p + 1) * l == p * l + l;
      }
    case LimitChosen(size) =>
  }

  lemma {:induction false} RunKeepsInRange(s: PagerState, events: seq<Event>, data: Option<TodosPage>)
    requires InRange(s, data)
    requires forall i :: 0 <= i < |events| ==> ValidEvent(events[i])
    ensures InRange(Run(s, events, data), data)
    decreases |events|
  {
    if events != [] {
      StepKeepsInRange(s, events[0], data);
      RunKeepsInRange(Step(s, events[0], data), events[1..], data);
    }
  }

  /** A page that starts inside a non-empty collection is one of the `totalPages` pages. */
  lemma InRangePageNumberBounded(s: PagerState, data: Option<TodosPage>)
    requires InRange(s, data) && data.Some? && data.value.total > 0
    ensures 1 <= s.currentPage + 1 <= TotalPages(s, data)
  {
    var r := TotalPages(s, data);
    var p, l := s.currentPage, s.limit;
    assert p * l < r * l;
  }

  /**
   * From the initial state, every page reached through Previous, Next and the
   * page-size selector is one of the `totalPages` pages whenever the collection
   * is non-empty: "Page n of m" never shows n > m.
   */
  lemma ReachablePagesValid(events: seq<Event>, data: Option<TodosPage>)
    requires forall i :: 0 <= i < |events| ==> ValidEvent(events[i])
    requires data.Some? && data.value.total > 0
    ensures ValidState(Run(Initial, events, data))
    ensures Run(Initial, events, data).currentPage + 1 <= TotalPages(Run(Initial, events, data), data)
  {
    RunKeepsInRange(Initial, events, data);
    InRangePageNumberBounded(Run(Initial, events, data), data);
  }

  /** Next is disabled exactly when `handleNextPage` would do nothing. */
  lemma NextDisabledIffNoOp(s: PagerState, page: TodosPage)
    requires ValidState(s)
    ensures NextDisabled(s, page.total) <==> Next(s, Some(page)) == s
  {
  }

  /** Previous is disabled exactly when `handlePreviousPage` would do nothing. */
  lemma PreviousDisabledIffNoOp(s: PagerState)
    requires ValidState(s)
    ensures PreviousDisabled(s) <==> Previous(s) == s
  {
  }

  /** The controls are shown exactly when there are at least two pages. */
  lemma ControlsIffSeveralPages(s: PagerState, data: Option<TodosPage>)
    requires ValidState(s)
    ensures ShowsControls(s, data) <==> TotalPages(s, data) >= 2
  {
    if data.Some? {
      var r, l, t := TotalPages(s, data), s.limit, data.value.total;
      if r >= 2 {
        assert (r - 1) * l >= l by {
          assert (r - 2) * l >= 0;
          assert (r - 1) * l == (r - 2) * l + l;
        }
      }
    }
  }

  /** Skip values repeat Next produces with 25 items, 10 per page: 0, 10, 20, and then no change. */
  lemma NextWalkExample(items: seq<Todo>)
    ensures var data := Some(TodosPage(items, 25, 0, 10));
      var s0 := PagerState(10, 0);
      var s1 := Next(s0, data);
      var s2 := Next(s1, data);
      var s3 := Next(s2, data);
      var s4 := Next(s3, data);
      Skip(s0) == 0 && Skip(s1) == 10 && Skip(s2) == 20 && Skip(s3) == 20 && s4 == s3
  {
  }

  /** 25 items at 10 per page make 3 pages. */
  lemma TotalPagesExample(items: seq<Todo>)
    ensures TotalPages(PagerState(10, 0), Some(TodosPage(items, 25, 0, 10))) == 3
  {
  }

  /** The pagination state of the list view. */
  class Pager {
    var limit: int
    var currentPage: int

    ghost predicate Valid()
      reads this
    {
      ValidState(State())
    }

    function State(): PagerState
      reads this
    {
      PagerState(limit, currentPage)
    }

    constructor ()
      ensures Valid() && State() == Initial
    {
      limit := DefaultLimit;
      currentPage := 0;
    }

    method HandlePreviousPage()
      requires Valid()
      modifies this
      ensures Valid() && State() == Previous(old(State()))
    {
      currentPage := if currentPage - 1 > 0 then currentPage - 1 else 0;
    }

    method HandleNextPage(data: Option<TodosPage>)
      requires Valid()
      modifies this
      ensures Valid() && State() == Next(old(State()), data)
    {
      var skip := currentPage * limit;
      if data.Some? && skip + limit < data.value.total {
        currentPage := currentPage + 1;
      }
    }

    method HandleLimitChange(size: int)
      requires Valid() && size in PageSizes
      modifies this
      ensures Valid() && State() == ChooseLimit(old(State()), size)
    {
      limit := size;
      currentPage := 0;
    }
  }
}
