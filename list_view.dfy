/** The product list's state as a value: the five pieces of component state,
    the changes a load and the three buttons make to it, and the choice of
    what the list renders. The network call is not modelled; its result
    arrives as an `Outcome`. */
module ListView {
  import opened Pagination

  /** A fetched product; the list only passes it on to its card. */
  datatype Product = Product(id: int, title: string)

  datatype Option<T> = None | Some(value: T)

  /** What the request for one page yields: the page's products and the
      catalog size, or a failure (HTTP error, transport error, bad JSON). */
  datatype Outcome = Ok(products: seq<Product>, total: nat) | Fail

  /** The arguments of `fetchProducts(limit, skip)`. */
  datatype Request = Request(limit: int, skip: int)

  /** The message set on any failed load. */
  const LoadErrorMessage: string := "Failed to load products. Please try again later."

  datatype ListState = ListState(
    products: seq<Product>,
    loading: bool,
    error: Option<string>,
    currentPage: int,
    totalProducts: nat)

  /** The state before the first load completes. */
  function Init(): (s: ListState)
    ensures Render(s) == Spinner && Consistent(s)
    ensures !InRange(s.currentPage, TotalPages(s.totalProducts))
  {
    ListState([], true, None, 1, 0)
  }

  /** The request a load issues for the current page. */
  function RequestFor(s: ListState): (req: Request)
    ensures req.limit == Limit && req.skip == Skip(s.currentPage)
    ensures s.currentPage >= 1 ==> req.skip >= 0 && PageOf(req.skip) == s.currentPage
  {
    SkipWindow(if s.currentPage >= 1 then s.currentPage else 1);
    Request(Limit, (s.currentPage - 1) * Limit)
  }

  /** `setLoading(true)` at the start of a load. */
  function StartLoad(s: ListState): (r: ListState)
    ensures r.loading && r.(loading := s.loading) == s
  {
    s.(loading := true)
  }

  /** What a finished load does to the state. */
  function ApplyOutcome(s: ListState, o: Outcome): (r: ListState)
    ensures !r.loading && r.currentPage == s.currentPage
    ensures o.Ok? ==> r.products == o.products && r.totalProducts == o.total && r.error == None
    ensures o.Fail? ==> r.error == Some(LoadErrorMessage) && r.(error := s.error, loading := s.loading) == s
  {
    match o
    case Ok(ps, t) => s.(products := ps, totalProducts := t, error := None, loading := false)
    case Fail => s.(error := Some(LoadErrorMessage), loading := false)
  }

  /** The page after Previous, Next and Try Again. */
  function PrevPressed(s: ListState): (r: ListState)
    ensures r.currentPage == PrevPage(s.currentPage) && r.(currentPage := s.currentPage) == s
    ensures r.currentPage >= 1
  {
    s.(currentPage := PrevPage(s.currentPage))
  }

  function NextPressed(s: ListState): (r: ListState)
    ensures r.currentPage == NextPage(s.currentPage, TotalPages(s.totalProducts)) && r.(currentPage := s.currentPage) == s
    ensures r.currentPage <= TotalPages(s.totalProducts)
  {
    s.(currentPage := NextPage(s.currentPage, TotalPages(s.totalProducts)))
  }

  function RetryPressed(s: ListState): (r: ListState)
    ensures r.currentPage == 1 && r.(currentPage := s.currentPage) == s
    ensures Reloads(s, r) <==> s.currentPage != 1
  {
    s.(currentPage := 1)
  }

  /** The load effect depends on `currentPage` alone: it runs again after a
      button exactly when the button changed the page's value. */
  predicate Reloads(before: ListState, after: ListState)
    ensures Reloads(before, after) <==> RequestFor(before) != RequestFor(after)
  {
    before.currentPage != after.currentPage
  }

  // ---------------------------------------------------------------------
  // Rendering

  /** The pagination bar under the grid. */
  datatype Pager = Pager(range: RangeLabel, prevDisabled: bool, nextDisabled: bool)

  /** The three shapes the list renders. */
  datatype View =
    | Spinner
    | ErrorPanel(message: string)
    | Grid(shown: seq<Product>, refreshing: bool, pager: Pager)

  /** An error string is truthy when it is set and not empty. */
  predicate HasError(e: Option<string>)
  {
    e.Some? && e.value != ""
  }

  function PagerOf(s: ListState): Pager
  {
    var pages := TotalPages(s.totalProducts);
    Pager(Label(s.currentPage, s.totalProducts), PrevDisabled(s.currentPage), NextDisabled(s.currentPage, pages))
  }

  function Render(s: ListState): (v: View)
    ensures v.Spinner? ==> s.loading
    ensures v.ErrorPanel? ==> v.message == LoadErrorMessage || !Consistent(s)
    ensures s.products != [] ==> v.Grid? && v.shown == s.products
  {
    if s.loading && |s.products| == 0 then Spinner
    else if HasError(s.error) && |s.products| == 0 then ErrorPanel(s.error.value)
    else Grid(s.products, s.loading && |s.products| > 0, PagerOf(s))
  }

  /** Which view is chosen, in the order the checks are made: the full
      spinner while loading with nothing to show, the error panel when a
      load failed with nothing to show, the grid otherwise, with a second
      spinner exactly while loading. */
  lemma RenderModes(s: ListState)
    ensures Render(s).Spinner? <==> s.loading && s.products == []
    ensures Render(s).ErrorPanel? <==> !s.loading && HasError(s.error) && s.products == []
    ensures Render(s).Grid? <==> (!s.loading && !HasError(s.error)) || s.products != []
    ensures Render(s).Grid? ==> Render(s).shown == s.products && (Render(s).refreshing <==> s.loading)
  {
  }

  /** Progressive refresh: once there are products, the grid shows them
      whatever the loading and error state, and never the error text. */
  lemma ProductsStayVisible(s: ListState)
    requires s.products != []
    ensures Render(s) == Grid(s.products, s.loading, PagerOf(s))
  {
  }

  /** The grid's buttons: Previous is disabled exactly on page 1 and Next
      exactly on the last page, so each disabled button is one that would
      not change the page. */
  lemma GridButtons(s: ListState)
    requires Render(s).Grid?
    ensures Render(s).pager.prevDisabled <==> s.currentPage == 1
    ensures Render(s).pager.nextDisabled <==> s.currentPage == TotalPages(s.totalProducts)
    ensures Render(s).pager.prevDisabled <==> PrevPressed(s) == s
    ensures Render(s).pager.nextDisabled <==> NextPressed(s) == s
  {
    DisabledIffNoMove(s.currentPage, TotalPages(s.totalProducts));
  }

  // ---------------------------------------------------------------------
  // Loads

  /** A successful load replaces the products and the total, clears the
      error and stops loading; the page stays. */
  lemma LoadSucceeds(s: ListState, ps: seq<Product>, t: nat)
    ensures ApplyOutcome(s, Ok(ps, t)) == ListState(ps, false, None, s.currentPage, t)
    ensures Render(ApplyOutcome(s, Ok(ps, t))).Grid?
  {
  }

  /** A failed load sets the fixed message and stops loading; products,
      total and page stay as they were. */
  lemma LoadFails(s: ListState)
    ensures ApplyOutcome(s, Fail) == ListState(s.products, false, Some(LoadErrorMessage), s.currentPage, s.totalProducts)
    ensures Render(ApplyOutcome(s, Fail)) == if s.products == [] then ErrorPanel(LoadErrorMessage) else Grid(s.products, false, PagerOf(s))
  {
  }

  /** Whatever the outcome, the full spinner is gone after a load, and a
      load in progress shows either the full or the second spinner. */
  lemma LoadingShowsSpinner(s: ListState, o: Outcome)
    ensures Render(StartLoad(s)) == Spinner || (Render(StartLoad(s)).Grid? && Render(StartLoad(s)).refreshing)
    ensures Render(ApplyOutcome(StartLoad(s), o)) != Spinner
    ensures Render(ApplyOutcome(StartLoad(s), o)).Grid? ==> !Render(ApplyOutcome(StartLoad(s), o)).refreshing
  {
  }

  /** When the load for a newly chosen page fails while the previous page's
      products are on screen, the grid keeps those products, drops the
      spinner and shows no error, but its label and buttons already belong
      to the new page (one further on below the last page, the last page
      when Next was pressed from beyond it). */
  lemma FailedPageChangeKeepsOldProducts(s: ListState)
    requires s.products != []
    ensures s.currentPage < TotalPages(s.totalProducts) ==> NextPressed(s).currentPage == s.currentPage + 1
    ensures Render(ApplyOutcome(StartLoad(NextPressed(s)), Fail))
         == Grid(s.products, false, PagerOf(NextPressed(s)))
  {
  }

  // ---------------------------------------------------------------------
  // Try Again

  /** The state after the very first load fails: the error panel. */
  lemma FirstLoadFailureShowsErrorPanel()
    ensures Render(ApplyOutcome(StartLoad(Init()), Fail)) == ErrorPanel(LoadErrorMessage)
  {
  }

  /** Try Again only sets page 1, so it reloads exactly when the page was
      another one; after the first load fails on page 1 it changes nothing
      and the error panel stays. */
  lemma RetryReloadsOffFirstPage(s: ListState)
    ensures RetryPressed(s).currentPage == 1
    ensures Reloads(s, RetryPressed(s)) <==> s.currentPage != 1
    ensures var f := ApplyOutcome(StartLoad(Init()), Fail);
      RetryPressed(f) == f && !Reloads(f, RetryPressed(f)) && Render(RetryPressed(f)) == ErrorPanel(LoadErrorMessage)
  {
  }

  /** When the retried load succeeds, the list is on page 1 with the error
      cleared and the grid showing the first window. */
  lemma RetryThenSuccess(s: ListState, ps: seq<Product>, t: nat)
    ensures var r := ApplyOutcome(StartLoad(RetryPressed(s)), Ok(ps, t));
      r.currentPage == 1 && r.error == None && RequestFor(RetryPressed(s)) == Request(Limit, 0)
      && Render(r) == Grid(ps, false, Pager(Label(1, t), true, TotalPages(t) == 1))
  {
  }

  // ---------------------------------------------------------------------
  // Reachable states

  /** Everything that can happen to the list, in any order. */
  datatype Event = Begin | Finish(o: Outcome) | Prev | Next | Retry

  function Step(s: ListState, e: Event): ListState
  {
    match e
    case Begin => StartLoad(s)
    case Finish(o) => ApplyOutcome(s, o)
    case Prev => PrevPressed(s)
    case Next => NextPressed(s)
    case Retry => RetryPressed(s)
  }

  function Run(s: ListState, es: seq<Event>): ListState
    decreases |es|
  {
    if es == [] then s else Run(Step(s, es[0]), es[1..])
  }

  /** What holds in every state the list can reach: the page is never
      negative, and the only error ever set is the fixed message. */
  predicate Consistent(s: ListState)
  {
    s.currentPage >= 0 && (s.error == None || s.error == Some(LoadErrorMessage))
  }

  lemma StepConsistent(s: ListState, e: Event)
    requires Consistent(s)
    ensures Consistent(Step(s, e))
  {
  }

  /** Every sequence of events from the initial state keeps `Consistent`. */
  lemma {:induction false} RunConsistent(s: ListState, es: seq<Event>)
    requires Consistent(s)
    ensures Consistent(Run(s, es))
    decreases |es|
  {
    if es != [] {
      StepConsistent(s, es[0]);
      RunConsistent(Step(s, es[0]), es[1..]);
    }
  }

  /** From a page in range, every step except a successful load keeps the
      page in range; only a load that changes the total can move it out. */
  lemma StepInRange(s: ListState, e: Event)
    requires InRange(s.currentPage, TotalPages(s.totalProducts))
    requires !(e.Finish? && e.o.Ok?)
    ensures InRange(Step(s, e).currentPage, TotalPages(Step(s, e).totalProducts))
  {
    PrevInRange(s.currentPage, TotalPages(s.totalProducts));
    NextInRange(s.currentPage, TotalPages(s.totalProducts));
  }

  /** How page 0 arises and how it is left: Next yields it exactly when
      there are no pages, and Previous or Try Again (to page 1) leave it, as
      does Next once there are products. */
  lemma PageZero(s: ListState)
    requires Consistent(s)
    ensures NextPressed(s).currentPage == 0 <==> TotalPages(s.totalProducts) == 0
    ensures s.currentPage == 0 ==> PrevPressed(s).currentPage == 1 && RetryPressed(s).currentPage == 1
    ensures s.currentPage == 0 && s.totalProducts > 0 ==> NextPressed(s).currentPage == 1
  {
    NoPagesIffNoProducts(s.totalProducts);
  }

  /** A successful load keeps the page in range exactly when the page's
      window starts below the new total. The initial state, page 1 of no
      pages, is outside the range, and the first load brings it into range
      exactly when it reports a product. */
  lemma LoadKeepsPageInRange(s: ListState, ps: seq<Product>, t: nat)
    ensures var r := ApplyOutcome(s, Ok(ps, t));
      InRange(r.currentPage, TotalPages(r.totalProducts)) <==> s.currentPage >= 1 && Skip(s.currentPage) < t
    ensures !InRange(Init().currentPage, TotalPages(Init().totalProducts))
    ensures var r := ApplyOutcome(StartLoad(Init()), Ok(ps, t));
      InRange(r.currentPage, TotalPages(r.totalProducts)) <==> t > 0
  {
    InRangeIffWindowStartsBelowTotal(s.currentPage, t);
    InRangeIffWindowStartsBelowTotal(1, t);
  }
}
