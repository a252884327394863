# Product list pagination — a Dafny model

This project models the product list of a small storefront, the
`ProductList` component. The component pages through a remote catalog 12
products at a time. It holds five pieces of state:

- `products`
- `loading`
- `error`
- `currentPage`
- `totalProducts`

From that state it:

- computes the fetch window of the current page;
- computes the number of pages;
- moves between pages with Previous and Next;
- disables those buttons at the ends;
- shows a "Showing a - b of n products" label;
- chooses between a full spinner, an error panel with a Try Again button, and the product grid (with a second spinner while the next page loads).

Three modules:

- `Pagination` (pagination.dfy) holds the page arithmetic as pure functions:
  - `Skip`, `TotalPages`, `PrevPage`, `NextPage`;
  - the two disabled flags and the range `Label`;
  - the effect of a sequence of clicks (`Clicks`).
  No lemma assumes the page is always in range. Lemmas that need it say so in their `requires`. `PrevInRange`, `NextInRange` and `LoadKeepsPageInRange` say exactly when each step keeps or breaks the range `1 <= page <= pages`.
- `ListView` (list_view.dfy) holds the component state as a value (`ListState`). It also holds:
  - the transitions: start of a load, applying a load's outcome, the three buttons;
  - the choice of what is rendered (`Render`);
  - an event-sequence model (`Run`) with the invariant every reachable state keeps.
- `ProductListComponent` (product_list.dfy) is the component as a class. Its fields are the five state cells. Its methods perform the setter calls in the component's order. Each method's `ensures` equates the new state with the matching `ListView` transition of the old state.

The network call is a parameter. A load's answer is an `Outcome`: either `Ok(products, total)` or `Fail`. `LoadProducts` takes the answering function `respond: Request -> Outcome`, so any answer to any request is covered. The load effect depends only on `currentPage`. It runs on mount and again whenever a handler changes the page's value. Each handler therefore returns `rerun`, which is true exactly when the page value changed. React skips an effect whose dependency keeps the same value.

Behaviour of the code that the model pins down:

- The code never clamps the page to `[1, totalPages]`:
  - The initial state is page 1 of 0 pages, outside the range. The first load brings it into range exactly when it reports a product (`LoadKeepsPageInRange`).
  - With an empty catalog, Next stays enabled (`1 !== 0`) and moves to page 0. Page 0 requests offset -12 (`EmptyCatalogNext`, `PageZero`).
  - A successful load may return a smaller total and leave the page beyond the last one (`LoadKeepsPageInRange`).
- Try Again only sets page 1; it does not itself start a load. When the first load fails, the page is already 1, so nothing re-runs and the error panel stays (`RetryReloadsOffFirstPage`).
- When the load of a new page fails while older products are shown, no error is displayed. The grid keeps the old products under the new page's label (`FailedPageChangeKeepsOldProducts`).

## Model

| member | source | states |
|---|---|---|
| `Pagination.Skip` | src/app/components/ProductList.tsx:18 | the fetch window of a page starts at a multiple of 12, and at a non-negative offset exactly when the page is at least 1 (`SkipWindow`, `PageOf` for its inverse) |
| `Pagination.PrevPage` | src/app/components/ProductList.tsx:36-38 | Previous never yields a page below 1 and steps back one from any page above 1 (more in `PrevNeverBelowFirst`, `PrevInRange`) |
| `Pagination.NextPage` | src/app/components/ProductList.tsx:40-42 | Next never yields a page above the page count and steps forward one from any page below it (more in `NextNeverBeyondLast`, `NextInRange`) |
| `Pagination.PrevDisabled` | src/app/components/ProductList.tsx:92 | Previous is disabled exactly when pressing it would leave the page unchanged |
| `Pagination.NextDisabled` | src/app/components/ProductList.tsx:100 | Next is disabled exactly when pressing it would leave the page unchanged |
| `Pagination.Label` | src/app/components/ProductList.tsx:86 | the label starts at the first product of the page's window and ends at the window's end or at the total, whichever is smaller (more in `LabelFullPage`, `LabelLastPage`) |
| `Pagination.PageOf` | src/app/components/ProductList.tsx:18 | every non-negative offset lies in the window `[Skip(p), Skip(p)+12)` of exactly the page it returns, and that page is at least 1 |
| `Pagination.TotalPages` | src/app/components/ProductList.tsx:34 | the page count `n` is the ceiling of `total/12`: `(n-1)*12 < total <= n*12` |
| `Pagination.SkipWindow` | src/app/components/ProductList.tsx:12-18 | page 1 fetches from offset 0, each further page 12 later, and the page of a window's first offset is that page again |
| `Pagination.InRangeIffWindowStartsBelowTotal` | src/app/components/ProductList.tsx:18-34 | page `p` lies in `[1, totalPages]` exactly when `p >= 1` and its window starts below the total |
| `Pagination.EveryProductHasAPage` | src/app/components/ProductList.tsx:18-34 | every product offset below the total falls in the window of a page that is in range |
| `Pagination.TotalPagesExamples` | src/app/components/ProductList.tsx:34 | 25 products make 3 pages, 24 make 2, 12 and 1 make 1, and 0 make 0 |
| `Pagination.NoPagesIffNoProducts` | src/app/components/ProductList.tsx:34 | the page count is never negative, and it is 0 exactly when the total is 0 |
| `Pagination.PrevNeverBelowFirst` | src/app/components/ProductList.tsx:36-38 | Previous never yields a page below 1, steps back one from any page above 1, and stays put at page 1 (idempotent there) |
| `Pagination.NextNeverBeyondLast` | src/app/components/ProductList.tsx:40-42 | Next never yields a page above `totalPages`; below the last page it steps forward one, otherwise it yields `totalPages` |
| `Pagination.PrevInRange` | src/app/components/ProductList.tsx:36-38 | Previous lands in range exactly when there is a page and the move starts at most one page past the last |
| `Pagination.NextInRange` | src/app/components/ProductList.tsx:40-42 | Next lands in range exactly when there is a page and the move starts at page 0 or later; with no pages it yields page 0 |
| `Pagination.PrevNextInverse` | src/app/components/ProductList.tsx:36-42 | inside the range, Previous undoes Next and Next undoes Previous |
| `Pagination.DisabledIffNoMove` | src/app/components/ProductList.tsx:90-101 | Previous is disabled exactly when pressing it keeps the page; Next likewise |
| `Pagination.EmptyCatalogNext` | src/app/components/ProductList.tsx:34-42 | with total 0 there are 0 pages, Next is enabled on page 1, pressing it gives page 0, which is out of range and whose window starts at -12 |
| `Pagination.ClicksStayInRange` | src/app/components/ProductList.tsx:36-42 | from a page in range, any sequence of Previous/Next clicks stays in range |
| `Pagination.ClicksNeverNegative` | src/app/components/ProductList.tsx:36-42 | from a non-negative page, clicks never reach a negative page; on an empty catalog they visit only pages 0 and 1 |
| `Pagination.NextClicksReach` | src/app/components/ProductList.tsx:40-42 | pressing Next `k` times from page `p` reaches page `p+k` whenever that page exists, so every page is reachable from page 1 |
| `Pagination.LabelFullPage` | src/app/components/ProductList.tsx:86 | on any page before the last, the label starts at the window's offset + 1 and spans exactly 12 products |
| `Pagination.LabelLastPage` | src/app/components/ProductList.tsx:86 | on the last page the label ends at the total and spans between 1 and 12 products |
| `Pagination.LabelsAbut` | src/app/components/ProductList.tsx:86 | the labels of consecutive pages in range follow one another without gap or overlap |
| `Pagination.LabelExamples` | src/app/components/ProductList.tsx:86 | page 3 of 25 reads "25 - 25 of 25", page 1 of 25 "1 - 12 of 25", an empty catalog "1 - 0 of 0", page 0 "-11 - 0 of 0" |
| `ListView.Init` | src/app/components/ProductList.tsx:7-11 | the initial state shows the full spinner, is consistent, and its page 1 lies outside the range of its 0 pages |
| `ListView.StartLoad` | src/app/components/ProductList.tsx:16 | a load starts by setting loading and changes nothing else |
| `ListView.ApplyOutcome` | src/app/components/ProductList.tsx:20-27 | after a load, loading is off and the page unchanged; success stores products and total and clears the error; failure sets the fixed message and changes nothing else (more in `LoadSucceeds`, `LoadFails`) |
| `ListView.PrevPressed` | src/app/components/ProductList.tsx:36-38 | Previous changes only the page, to `PrevPage` of the old page: one back from any page above 1, otherwise 1 |
| `ListView.NextPressed` | src/app/components/ProductList.tsx:40-42 | Next changes only the page, to `NextPage` of the old page under the current page count: one forward below the last page, otherwise the last page |
| `ListView.RetryPressed` | src/app/components/ProductList.tsx:58 | Try Again changes only the page, to 1, and re-runs the load exactly when the page was not 1 |
| `ListView.Reloads` | src/app/components/ProductList.tsx:31-32 | the load effect re-runs exactly when the request for the new page differs from the old one, that is, when the page value changed |
| `ListView.Render` | src/app/components/ProductList.tsx:44-81 | the full spinner shows only while loading, the error panel only with the fixed message in a consistent state, and with products present always the grid showing them (more in `RenderModes`) |
| `ListView.RequestFor` | src/app/components/ProductList.tsx:18-19 | a load asks for 12 products from offset `Skip(currentPage)`, and on a page >= 1 that offset is non-negative and maps back to the page |
| `ListView.RenderModes` | src/app/components/ProductList.tsx:44-81 | full spinner iff loading with no products; error panel iff not loading, an error set and no products; grid otherwise, showing the products, with the second spinner iff loading |
| `ListView.ProductsStayVisible` | src/app/components/ProductList.tsx:68-81 | once there are products the grid shows them whatever the loading and error state, and the error text is not shown |
| `ListView.GridButtons` | src/app/components/ProductList.tsx:90-101 | in the grid, Previous is disabled iff on page 1 and Next iff on page `totalPages`, each exactly when pressing it changes nothing |
| `ListView.LoadSucceeds` | src/app/components/ProductList.tsx:20-27 | success replaces products and total, clears the error, stops loading, keeps the page, and always leads to the grid |
| `ListView.LoadFails` | src/app/components/ProductList.tsx:23-27 | failure sets the fixed message, stops loading, and keeps products, total and page; the result is the error panel with no products and the non-refreshing grid otherwise |
| `ListView.LoadingShowsSpinner` | src/app/components/ProductList.tsx:16-27 | during a load one of the two spinners shows; after it, whatever the outcome, neither does |
| `ListView.FailedPageChangeKeepsOldProducts` | src/app/components/ProductList.tsx:23-41 | a failed load after Next keeps the previous page's products on screen, shows no error, and labels them with the new page's range; below the last page that new page is one further on |
| `ListView.FirstLoadFailureShowsErrorPanel` | src/app/components/ProductList.tsx:52-66 | a failed first load shows the error panel with the fixed message |
| `ListView.RetryReloadsOffFirstPage` | src/app/components/ProductList.tsx:58 | Try Again sets page 1 and re-runs the load exactly when the page was another one; after a failed first load it changes nothing and the error panel stays |
| `ListView.RetryThenSuccess` | src/app/components/ProductList.tsx:18-58 | a retried load asks for offset 0, and on success leaves page 1, no error, and the grid with Previous disabled |
| `ListView.StepConsistent` | src/app/components/ProductList.tsx:7-42 | every load step and every button keeps the page non-negative and the error either unset or the fixed message |
| `ListView.RunConsistent` | src/app/components/ProductList.tsx:7-42 | every sequence of loads and clicks from a consistent state ends in a consistent state |
| `ListView.StepInRange` | src/app/components/ProductList.tsx:16-42 | from a page in range, starting a load, a failed load, Previous, Next and Try Again all keep the page in range; only a successful load can move it out |
| `ListView.PageZero` | src/app/components/ProductList.tsx:36-42 | Next yields page 0 exactly when there are no pages; from page 0, Previous and Try Again go to page 1, and so does Next once there are products |
| `ListView.LoadKeepsPageInRange` | src/app/components/ProductList.tsx:20-34 | after a successful load the page is in range exactly when its window starts below the new total; the initial page 1 of 0 pages is out of range, and the first load brings it in exactly when it reports a product |
| `ProductListComponent.ProductList.constructor` | src/app/components/ProductList.tsx:7-11 | the initial state: no products, loading, no error, page 1, total 0, showing the full spinner |
| `ProductListComponent.ProductList.BeginLoad` | src/app/components/ProductList.tsx:16-19 | sets loading, changes nothing else, and returns the request for the current page's window |
| `ProductListComponent.ProductList.FinishLoad` | src/app/components/ProductList.tsx:20-28 | the new state is the outcome applied to the old one |
| `ProductListComponent.ProductList.LoadProducts` | src/app/components/ProductList.tsx:15-31 | one whole load: the request is the current page's window and the new state is the network's answer to that request applied |
| `ProductListComponent.ProductList.HandlePrevPage` | src/app/components/ProductList.tsx:36-38 | the page becomes `PrevPage` of the old page, nothing else changes, and the load re-runs iff the page changed |
| `ProductListComponent.ProductList.HandleNextPage` | src/app/components/ProductList.tsx:40-42 | the page becomes `NextPage` of the old page under the current page count, nothing else changes, and the load re-runs iff the page changed |
| `ProductListComponent.ProductList.TryAgain` | src/app/components/ProductList.tsx:58 | the page becomes 1, nothing else changes, and the load re-runs iff the page was not already 1 |

## Left out

- The network wrapper `fetchProducts` (src/app/utils/api.ts) is not modelled: no URL building, no JSON decoding, no `response.ok` check. Its result is the `Outcome` parameter, and every kind of failure is one `Fail`.
- The model does not assume that a response holds at most 12 products or that its total matches the catalog. Any answer is allowed.
- `totalProducts` is a `nat`. The catalog total from the API is taken to be a non-negative integer. Fractional or negative totals, and `Math.ceil` on non-integers, are not modelled.
- Overlapping loads are not modelled. A stale response that lands after a newer one is a matter of the runtime's scheduling, so each load is one atomic request-then-apply step (`LoadProducts`). `BeginLoad`/`FinishLoad` expose the state between the two halves.
- The event model (`ListView.Run`) lets loads and clicks happen in any order. That is more than the runtime allows, so its invariant is safe but not tight.
- Re-render scheduling is left out. The model keeps only one rule of React's effects: the load re-runs when the value of `currentPage` changes.
- `console.error`, the markup and styling, and the `ProductCard` children are not modelled.
- The label is kept as three integers. Writing them out as decimal text is not modelled.
- ProductCard.tsx is not part of this model. Its discounted price and rating are floating-point display formatting.
- Footer.tsx, Navbar.tsx and page.tsx are not part of this model. They are static markup. The footer's year is a clock read.
- The product detail page (src/app/product/[id]/page.tsx) is a separate view and is not part of this model.
