/** The `ProductList` component as an object: its five state cells are
    fields, and the load and the three button handlers update them the way
    the component's setters do. Each method is proved against the value-level
    transition of the same name in `ListView`. */
module ProductListComponent {
  import opened Pagination
  import opened ListView

  class ProductList {
    var products: seq<Product>
    var loading: bool
    var error: Option<string>
    var currentPage: int
    var totalProducts: nat

    /** The fields as one value. */
    function State(): ListState
      reads this
    {
      ListState(products, loading, error, currentPage, totalProducts)
    }

    ghost predicate Valid()
      reads this
    {
      Consistent(State())
    }

    /** What the component shows for its current state. */
    function Screen(): View
      reads this
    {
      Render(State())
    }

    /** The initial `useState` values. */
    constructor ()
      ensures Valid() && State() == Init()
      ensures Screen() == Spinner
    {
      products := [];
      loading := true;
      error := None;
      currentPage := 1;
      totalProducts := 0;
    }

    /** The start of `loadProducts`: mark loading and issue the request for
        the current page's window. */
    method BeginLoad() returns (req: Request)
      requires Valid()
      modifies this
      ensures Valid() && State() == StartLoad(old(State()))
      ensures req == RequestFor(State())
    {
      loading := true;
      var skip := (currentPage - 1) * Limit;
      req := Request(Limit, skip);
    }

    /** The rest of `loadProducts`: store the response or the error, then
        stop loading. */
    method FinishLoad(o: Outcome)
      requires Valid()
      modifies this
      ensures Valid() && State() == ApplyOutcome(old(State()), o)
    {
      match o {
        case Ok(ps, t) =>
          products := ps;
          totalProducts := t;
          error := None;
        case Fail =>
          error := Some(LoadErrorMessage);
      }
      loading := false;
    }

    /** One whole load, with `respond` standing for the network: whatever it
        answers for the request, the state afterwards is that answer applied. */
    method LoadProducts(respond: Request -> Outcome) returns (req: Request)
      requires Valid()
      modifies this
      ensures Valid() && req == RequestFor(old(State()))
      ensures State() == ApplyOutcome(StartLoad(old(State())), respond(req))
    {
      req := BeginLoad();
      FinishLoad(respond(req));
    }

    /** Previous; `rerun` says whether the load effect runs again. */
    method HandlePrevPage() returns (rerun: bool)
      requires Valid()
      modifies this
      ensures Valid() && State() == PrevPressed(old(State()))
      ensures rerun == Reloads(old(State()), State())
    {
      var prev := currentPage;
      currentPage := if prev - 1 > 1 then prev - 1 else 1;
      rerun := currentPage != prev;
    }

    /** Next, bounded by the page count of the current total. */
    method HandleNextPage() returns (rerun: bool)
      requires Valid()
      modifies this
      ensures Valid() && State() == NextPressed(old(State()))
      ensures rerun == Reloads(old(State()), State())
    {
      var prev := currentPage;
      var totalPages := TotalPages(totalProducts);
      NoPagesIffNoProducts(totalProducts);
      currentPage := if prev + 1 < totalPages then prev + 1 else totalPages;
      rerun := currentPage != prev;
    }

    /** Try Again on the error panel: back to page 1. */
    method TryAgain() returns (rerun: bool)
      requires Valid()
      modifies this
      ensures Valid() && State() == RetryPressed(old(State()))
      ensures rerun == Reloads(old(State()), State())
    {
      var prev := currentPage;
      currentPage := 1;
      rerun := currentPage != prev;
    }
  }

  /** The component's first moments: mounted, the first load fails, the
      error panel appears, and Try Again does not run the load again. */
  method FirstLoadFails()
  {
    var list := new ProductList();
    var req := list.LoadProducts(_ => Fail);
    assert req == Request(12, 0);
    FirstLoadFailureShowsErrorPanel();
    assert list.Screen() == ErrorPanel(LoadErrorMessage);
    var rerun := list.TryAgain();
    assert !rerun && list.Screen() == ErrorPanel(LoadErrorMessage);
  }

  /** An empty catalog: the first load succeeds with no products, Next is
      enabled, and pressing it moves to page 0, whose request starts at -12. */
  method EmptyCatalog()
  {
    var list := new ProductList();
    var req := list.LoadProducts(_ => Ok([], 0));
    assert list.Screen() == Grid([], false, Pager(RangeLabel(1, 0, 0), true, false));
    var rerun := list.HandleNextPage();
    assert rerun && list.currentPage == 0;
    req := list.BeginLoad();
    assert req == Request(12, -12);
  }
}
