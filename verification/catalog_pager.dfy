/**
  The pagination of the available-collections table: the `{ page, pageSize }`
  state, its prev / next / rows-change transitions with the refetch each one
  issues, and the "showing from-to of total" window.
 */
module CatalogPager {
  import opened Optional

  datatype Pagination = Pagination(page: int, pageSize: int)

  /** The state the table starts in. */
  const InitialPagination: Pagination := Pagination(1, 25)

  /** The page sizes the rows selector offers. */
  const RowsOptions: seq<int> := [25, 50]

  /** The new state and the variables the catalog is refetched with, if it is. */
  datatype Transition = Transition(state: Pagination, refetch: Option<Pagination>)

  /** Previous page: a no-op on page 1, otherwise one page back. */
  function PrevClick(s: Pagination): (t: Transition)
    ensures t.state.pageSize == s.pageSize
    ensures s.page == 1 ==> t.state == s && t.refetch.None?
    ensures s.page != 1 ==> t.state.page == s.page - 1 && t.refetch == Some(t.state)
  {
    if s.page == 1 then Transition(s, None)
    else
      var next := s.(page := s.page - 1);
      Transition(next, Some(next))
  }

  /** Next page; nothing here bounds it by the catalog's total. */
  function NextClick(s: Pagination): (t: Transition)
    ensures t.state.pageSize == s.pageSize
    ensures t.state.page == s.page + 1 && t.refetch == Some(t.state)
  {
    var next := s.(page := s.page + 1);
    Transition(next, Some(next))
  }

  /** A new page size from the rows selector: back to page 1. */
  function RowsChange(s: Pagination, value: int): (t: Transition)
    ensures t.state.page == 1 && t.state.pageSize == value
    ensures t.refetch == Some(t.state)
  {
    var next := Pagination(1, value);
    Transition(next, Some(next))
  }

  datatype PagerEvent = Prev | Next | Rows(value: int)

  function Step(s: Pagination, e: PagerEvent): (r: Transition) {
    match e
    case Prev => PrevClick(s)
    case Next => NextClick(s)
    case Rows(v) => RowsChange(s, v)
  }

  /** The state after handling `events` in order, starting from `s`. */
  function Run(s: Pagination, events: seq<PagerEvent>): (r: Pagination)
    decreases |events|
  {
    if |events| == 0 then s
    else Step(Run(s, events[..|events| - 1]), events[|events| - 1]).state
  }

  /** The page size after `events`: the last rows-change value, or the starting one. */
  function LastPageSize(start: int, events: seq<PagerEvent>): (r: int)
    decreases |events|
  {
    if |events| == 0 then start
    else if events[|events| - 1].Rows? then events[|events| - 1].value
    else LastPageSize(start, events[..|events| - 1])
  }

  /** Every state reached from one on page 1 or later stays on page 1 or later. */
  lemma {:induction false} PageStaysPositive(s: Pagination, events: seq<PagerEvent>)
    requires s.page >= 1
    ensures Run(s, events).page >= 1
    decreases |events|
  {
    if |events| > 0 {
      PageStaysPositive(s, events[..|events| - 1]);
    }
  }

  /** Only a rows change alters the page size. */
  lemma {:induction false} PageSizeIsLastRowsChange(s: Pagination, events: seq<PagerEvent>)
    ensures Run(s, events).pageSize == LastPageSize(s.pageSize, events)
    decreases |events|
  {
    if |events| > 0 {
      PageSizeIsLastRowsChange(s, events[..|events| - 1]);
    }
  }

  /** From the initial state, with sizes taken from the rows selector, the page size is one it offers. */
  lemma ReachableStatesAreValid(events: seq<PagerEvent>)
    requires forall i :: 0 <= i < |events| && events[i].Rows? ==> events[i].value in RowsOptions
    ensures Run(InitialPagination, events).page >= 1
    ensures Run(InitialPagination, events).pageSize in RowsOptions
  {
    PageStaysPositive(InitialPagination, events);
    PageSizeIsLastRowsChange(InitialPagination, events);
    LastPageSizeOffered(events);
  }

  lemma {:induction false} LastPageSizeOffered(events: seq<PagerEvent>)
    requires forall i :: 0 <= i < |events| && events[i].Rows? ==> events[i].value in RowsOptions
    ensures LastPageSize(InitialPagination.pageSize, events) in RowsOptions
    decreases |events|
  {
    if |events| > 0 && !events[|events| - 1].Rows? {
      LastPageSizeOffered(events[..|events| - 1]);
    }
  }

  /** Next then prev returns to the starting state. */
  lemma NextThenPrev(s: Pagination)
    requires s.page >= 1
    ensures PrevClick(NextClick(s).state).state == s
  {
  }

  /** Prev (when it moves) then next returns to the starting state. */
  lemma PrevThenNext(s: Pagination)
    requires s.page != 1
    ensures NextClick(PrevClick(s).state).state == s
  {
  }

  /** The numbers the table shows: first item, last item, and total. */
  datatype Window = Window(itemFrom: int, itemTo: int, totalItems: int)

  /**
    `total` is the catalog size from the last fetch, absent before one has
    completed. An absent total compares false against the page end, so the
    last item shown is then the page end itself.
   */
  function DisplayWindow(s: Pagination, total: Option<int>): (w: Window)
    ensures w.itemTo <= s.page * s.pageSize
    ensures total.Some? ==> w.itemTo <= total.value && w.totalItems == total.value
    ensures total.Some? ==> w.itemTo == total.value || w.itemTo == s.page * s.pageSize
    ensures total.None? ==> w.itemTo == s.page * s.pageSize && w.totalItems == 0
    ensures w.itemFrom - 1 == (s.page - 1) * s.pageSize
  {
    var pageEnd := s.page * s.pageSize;
    Window(
      (s.page - 1) * s.pageSize + 1,
      if total.Some? && total.value < pageEnd then total.value else pageEnd,
      total.GetOr(0))
  }

  /** A window never spans more than one page, and spans a full page while the catalog reaches past it. */
  lemma WindowSpan(s: Pagination, total: int)
    ensures var w := DisplayWindow(s, Some(total));
      && w.itemTo - w.itemFrom + 1 <= s.pageSize
      && (total >= s.page * s.pageSize ==> w.itemTo - w.itemFrom + 1 == s.pageSize)
  {
  }

  /** The window after next starts right after the current full window ends. */
  lemma NextWindowFollows(s: Pagination, total: int)
    requires total >= s.page * s.pageSize
    ensures DisplayWindow(NextClick(s).state, Some(total)).itemFrom == DisplayWindow(s, Some(total)).itemTo + 1
  {
    assert (s.page + 1 - 1) * s.pageSize == s.page * s.pageSize;
  }

  /** After a rows change the window starts at item 1 and ends at the smaller of total and size. */
  lemma RowsChangeWindow(s: Pagination, value: int, total: int)
    ensures var w := DisplayWindow(RowsChange(s, value).state, Some(total));
      w.itemFrom == 1 && w.itemTo == (if total < value then total else value)
  {
  }

  /** An empty catalog on page 1 shows items 1 to 0, which is not an error. */
  lemma EmptyCatalogWindow(pageSize: int)
    ensures DisplayWindow(Pagination(1, pageSize), Some(0)).itemFrom == 1
    ensures pageSize >= 0 ==> DisplayWindow(Pagination(1, pageSize), Some(0)).itemTo == 0
  {
  }

  lemma ThirdPageWindow()
    ensures DisplayWindow(Pagination(3, 25), Some(60)) == Window(51, 60, 60)
  {
  }
}
