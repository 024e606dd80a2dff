# Dog search page: pagination and page-state model

A Dafny model of the logic in a single-page app for browsing adoptable dogs. It covers two parts:

- **The page control** (`pagination.dfy`, module `Pagination`). Given the current page and the page count, it shows a window of at most seven slots: page numbers plus ellipsis markers (`Token = Page(n) | Dots`). It also has Previous/Next arrows. Previous requests the page before whenever the current page exceeds 1, and Next requests the page after only while the current page is below the page count. So an arrow requests an existing page whenever the current page is itself a page of the result.
- **The search page** (`search_page.dfy`, module `SearchPage`). This part covers:
  - the result-window arithmetic: the request offset, the page count as the ceiling of `total / 25`, and the "Showing X to Y of N" bounds;
  - the favorites toggle as a set flip;
  - a `SearchController` class whose fields are the page's state: filter, sort order, total, dogs, favorites, current page and match. Its methods model a search, a match request, closing the match pop-up and the mobile Previous/Next links. A click on a token of the page control is also a method.

The search, fetch and match services are not called. Their replies are method parameters, where `None` stands for a request that threw. The methods return every request they would send: a search, whether direct or through a navigation link or a page token, returns its query and then the dog ids it asks for; a match request returns the favorites it sends and then the matched id it asks for.

Behaviour that follows the code rather than a simpler reading of it:

- **Negative page count.** It produces an empty control, because building an array from `{ length: totalPages }` clamps a negative length to zero.
- **Failed dog fetch.** When the search call succeeds but the fetch of its dogs fails, the new total has already been stored. Only `dogs`, `currentPage` and `matchResult` stay as they were. The current page can therefore end up past the page count, with a "Showing" line whose start exceeds its end and a Previous arrow that asks for a page that does not exist (`SearchPage.StalePageAfterFailedFetch`). A search whose first call fails changes nothing.
- **Empty match fetch.** When fetching the matched dog returns no dog, the match becomes empty (the code reads element 0 of an empty list). The request still counts as matched.

## Model

| member | source | states |
|---|---|---|
| Pagination.Range | src/app/components/Pagination.tsx:14-44 | the control never shows more than seven slots |
| Pagination.RangeUpToWindow | src/app/components/Pagination.tsx:17-19 | with at most seven pages: exactly pages 1..totalPages in order and no ellipsis; nothing for a count of zero or less |
| Pagination.RangeNearStart | src/app/components/Pagination.tsx:21-23 | past seven pages with current page at most 4: `[1,2,3,4,5,…,totalPages]` |
| Pagination.RangeNearEnd | src/app/components/Pagination.tsx:25-33 | past seven pages, otherwise with current page at least totalPages-3: `[1,…,totalPages-4..totalPages]` |
| Pagination.RangeInMiddle | src/app/components/Pagination.tsx:35-43 | otherwise `[1,…,current-1,current,current+1,…,totalPages]` |
| Pagination.RangeFillsWindow | src/app/components/Pagination.tsx:21-43 | past seven pages: exactly seven slots, the first page 1, the last page totalPages, and an ellipsis somewhere |
| Pagination.RangeWellFormed | src/app/components/Pagination.tsx:17-43 | for every current page, even out of range: pages lie in [1, totalPages] and strictly increase; an ellipsis is never first, last or next to another; neighbouring pages are consecutive and an ellipsis always hides a gap |
| Pagination.RangeExamples | src/app/components/Pagination.tsx:17-43 | worked instances for 5 pages and for 20 pages at pages 1, 4, 10 and 18 |
| Pagination.RangeHighlightsCurrent | src/app/components/Pagination.tsx:17-43 | the current page appears as a token if and only if it lies in [1, totalPages], and never twice, so the highlighted entry at line 92 exists and is unique |
| Pagination.RangeShowsNeighbours | src/app/components/Pagination.tsx:17-43 | for a current page in range, the page itself and each neighbour that exists are shown |
| Pagination.PreviousTarget | src/app/components/Pagination.tsx:57 | the Previous arrow requests a page exactly when the current page exceeds 1, and then the page before it |
| Pagination.NextTarget | src/app/components/Pagination.tsx:105 | the Next arrow requests a page exactly when the current page is below totalPages, and then the next page, which is at most totalPages |
| Pagination.TokenTarget | src/app/components/Pagination.tsx:75-99 | a page token is clickable and requests its own page; an ellipsis is not clickable |
| Pagination.RequestsStayInRange | src/app/components/Pagination.tsx:57-105 | from a current page in [1, totalPages], every page that an arrow or a token can request lies in [1, totalPages] |
| SearchPage.Offset | src/app/pages/SearchPage.tsx:55 | the offset is a multiple of 25 whose quotient by 25 is page-1, and it is non-negative exactly when page >= 1 |
| SearchPage.PageOf | src/app/pages/SearchPage.tsx:55 | inverse of the offset: a result index lies within the 25 results starting at its page's offset |
| SearchPage.TotalPages | src/app/pages/SearchPage.tsx:125 | the ceiling of totalResults/25: `(r-1)*25 < totalResults <= r*25`, so 0 for no results and at least 1 otherwise |
| SearchPage.ShowsPagination | src/app/pages/SearchPage.tsx:196 | the page controls appear exactly when there are more than 25 results |
| SearchPage.StartResult | src/app/pages/SearchPage.tsx:126 | 0 exactly when there are no results, otherwise one past the page's offset |
| SearchPage.EndResult | src/app/pages/SearchPage.tsx:127 | the smaller of the total and the end of the page's 25-result block |
| SearchPage.ShowingWindow | src/app/pages/SearchPage.tsx:125-127 | on a real page: 1 <= start <= end <= total with at most 25 results; a full page before the last page, and the last page ends at the total |
| SearchPage.ResultOnOnePage | src/app/pages/SearchPage.tsx:125-127 | every result number lies in the shown range of exactly one page, and that page is a real page |
| SearchPage.BuildQuery | src/app/pages/SearchPage.tsx:54-61 | the request asks for 25 dogs from the page's offset; it filters by breed exactly when a breed is selected, and sorts by breed in the chosen order |
| SearchPage.Toggle | src/app/pages/SearchPage.tsx:77-95 | flips membership of the toggled id, leaves every other id unchanged and changes the size by one |
| SearchPage.ToggleTwice | src/app/pages/SearchPage.tsx:77-95 | toggling the same id twice restores the favorites |
| SearchPage.ToggleCommutes | src/app/pages/SearchPage.tsx:77-95 | toggles of two ids commute |
| SearchPage.SearchController.constructor | src/app/pages/SearchPage.tsx:24-37 | initial state: no filter, ascending, no results, no favorites, page 1, no match |
| SearchPage.SearchController.PerformSearch | src/app/pages/SearchPage.tsx:54-74 | sends the page's query, then asks for the returned ids; a failed search changes nothing; a failed dog fetch leaves only the new total; a full success stores the total and dogs, moves to the page and clears the match; favorites and filters are untouched |
| SearchPage.SearchController.ToggleFavorite | src/app/pages/SearchPage.tsx:77-97 | the favorites become the toggled set, and nothing else changes |
| SearchPage.SearchController.GenerateMatch | src/app/pages/SearchPage.tsx:100-118 | with no favorites nothing is requested and the match is unchanged; otherwise the favorites are sent, then the matched id is looked up; a failure leaves the match unchanged, and a success stores the first fetched dog, or none |
| SearchPage.StalePageAfterFailedFetch | src/app/pages/SearchPage.tsx:63-69 | after a search whose dog fetch fails, the page can lie past the page count: page 10 of a two-page result, showing 226 to 30 of 30, with the control still shown and Previous asking for page 9 |
| SearchPage.SearchController.CloseMatch | src/app/pages/SearchPage.tsx:257 | closing the pop-up clears the match |
| SearchPage.SearchController.GoPrevious | src/app/pages/SearchPage.tsx:204 | the mobile Previous link searches current-1 with the filter in force exactly when the current page exceeds 1, then the returned ids, leaving the full post-search state of that search; otherwise nothing changes; the page stays at least 1 |
| SearchPage.SearchController.GoNext | src/app/pages/SearchPage.tsx:214 | the mobile Next link searches current+1 with the filter in force exactly when the current page is below the page count, then the returned ids, leaving the full post-search state of that search; otherwise nothing changes; it never moves past the last page |
| SearchPage.SearchController.SelectToken | src/app/pages/SearchPage.tsx:231-235 | a click on a page token searches that page with the filter in force, then the returned ids, leaving the full post-search state, and the page stays within [1, page count]; a click on an ellipsis changes nothing |

## Left out

- Network calls (`searchDogs`, `fetchDogs`, `matchDogs`, `fetchBreeds`, login) are not part of this model. Their replies are parameters. The ids the search returns are not checked against the dogs fetched for them.
- SearchPage.SearchController.GenerateMatch: the dogs fetched for the matched id are not checked to carry that id; the service is trusted to answer the lookup it was sent.
- Loading the breed list and re-running the search when the filter or sort order changes are not modelled. Both are React effect scheduling. For the same reason, changing the filter or sort order has no method.
- Toasts, the 500 ms toast throttle (which reads the clock), confetti and all markup are not modelled. `GenerateMatch` returns which of its three outcomes occurred instead of showing a toast.
- The order of the favorite ids sent with a match request is not modelled. The favorites are a set, so the request carries the set.
- SearchPage.BuildQuery: `from` is sent as decimal text. The model keeps it as an integer.
- SearchPage.TotalPages: models the exact ceiling over integers. Floating-point rounding of `Math.ceil(total / 25)` for totals beyond 2^53 is not modelled.
- Concurrency: two searches in flight at once can finish in either order. Each method here runs one request to completion.
