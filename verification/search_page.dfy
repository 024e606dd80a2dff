/**
  The search page: where a page of results starts, how many pages there are,
  the "Showing X to Y of N" line, the favorites set, and the page controller
  whose state a search, a match request and the navigation links update.
 */
module SearchPage {

  import opened Optional
  import Pagination

  /** How many dogs one page of results holds. */
  const PageSize: int := 25

  /** A dog as the remote service describes it. */
  datatype Dog = Dog(id: string, img: string, name: string, age: int, zipCode: string, breed: string)

  datatype SortOrder = Asc | Desc

  /** The query parameters of a search request; `from` is sent as its decimal text. */
  datatype SearchQuery = SearchQuery(breeds: Option<seq<string>>, size: int, from: int, sort: string)

  /** What the search service answers: the ids of one page of dogs and the total count. */
  datatype SearchReply = SearchReply(resultIds: seq<string>, total: int)

  /** How a match request ended, as the page reports it to the user. */
  datatype MatchOutcome = NoFavorites | MatchFailed | Matched

  /** The index of the first result of `page` in the whole result list. */
  function Offset(page: int): (r: int)
    ensures r % PageSize == 0 && r / PageSize == page - 1
    ensures page >= 1 <==> r >= 0
  {
    (page - 1) * PageSize
  }

  /** The page that holds the result at (zero-based) index `k`: the inverse of `Offset`. */
  function PageOf(k: int): (p: int)
    ensures Offset(p) <= k < Offset(p) + PageSize
    ensures k >= 0 ==> p >= 1
  {
    k / PageSize + 1
  }

  /** The number of pages `totalResults` results fill: the ceiling of `totalResults / PageSize`. */
  function TotalPages(totalResults: int): (r: int)
    ensures (r - 1) * PageSize < totalResults <= r * PageSize
    ensures totalResults == 0 ==> r == 0
    ensures totalResults > 0 ==> r >= 1
  {
    (totalResults + PageSize - 1) / PageSize
  }

  /** The page control appears exactly when the results do not fit on one page. */
  function ShowsPagination(totalResults: int): (r: bool)
    ensures r <==> totalResults > PageSize
  {
    TotalPages(totalResults) > 1
  }

  /** The one-based number of the first result shown, or 0 when there are none. */
  function StartResult(totalResults: int, currentPage: int): (r: int)
    ensures r == 0 <==> totalResults == 0
    ensures totalResults != 0 ==> r == Offset(currentPage) + 1
  {
    if totalResults == 0 then 0 else (currentPage - 1) * PageSize + 1
  }

  /** The one-based number of the last result shown. */
  function EndResult(totalResults: int, currentPage: int): (r: int)
    ensures r <= totalResults && r <= Offset(currentPage) + PageSize
    ensures r == totalResults || r == Offset(currentPage) + PageSize
  {
    if currentPage * PageSize <= totalResults then currentPage * PageSize else totalResults
  }

  /**
    On a real page the "Showing X to Y of N" line names a non-empty run of at
    most one page of results; it is a full page except on the last page, which
    ends at the last result.
   */
  lemma ShowingWindow(totalResults: int, currentPage: int)
    requires totalResults > 0 && 1 <= currentPage <= TotalPages(totalResults)
    ensures var start, end := StartResult(totalResults, currentPage), EndResult(totalResults, currentPage);
      && 1 <= start <= end <= totalResults
      && end - start + 1 <= PageSize
      && (currentPage < TotalPages(totalResults) ==> end - start + 1 == PageSize)
      && (currentPage == TotalPages(totalResults) ==> end == totalResults)
  {
  }

  /**
    The pages partition the results: result number `k` is shown on page
    `PageOf(k - 1)` and on no other page.
   */
  lemma ResultOnOnePage(totalResults: int, k: int, page: int)
    requires 1 <= k <= totalResults
    ensures 1 <= PageOf(k - 1) <= TotalPages(totalResults)
    ensures StartResult(totalResults, page) <= k <= EndResult(totalResults, page) <==> page == PageOf(k - 1)
  {
  }

  /** The query a search for `page` sends: one page of dogs, starting at that page's offset. */
  function BuildQuery(breedFilter: string, sortOrder: SortOrder, page: int): (q: SearchQuery)
    ensures q.size == PageSize && q.from == Offset(page)
    ensures q.breeds.Some? <==> breedFilter != ""
    ensures q.breeds.Some? ==> q.breeds.value == [breedFilter]
    ensures q.sort == "breed:" + (if sortOrder == Asc then "asc" else "desc")
  {
    SearchQuery(
      if breedFilter != "" then Some([breedFilter]) else None,
      PageSize,
      (page - 1) * PageSize,
      "breed:" + match sortOrder case Asc => "asc" case Desc => "desc")
  }

  /** The favorites after toggling `dogId`: it flips membership of that id and no other. */
  function Toggle(favorites: set<string>, dogId: string): (r: set<string>)
    ensures dogId in r <==> dogId !in favorites
    ensures forall id :: id != dogId ==> (id in r <==> id in favorites)
    ensures |r| == if dogId in favorites then |favorites| - 1 else |favorites| + 1
  {
    if dogId in favorites then favorites - {dogId} else favorites + {dogId}
  }

  /** Toggling the same dog twice restores the favorites. */
  lemma ToggleTwice(favorites: set<string>, dogId: string)
    ensures Toggle(Toggle(favorites, dogId), dogId) == favorites
  {
  }

  /** Toggles of any two dogs commute. */
  lemma ToggleCommutes(favorites: set<string>, a: string, b: string)
    ensures Toggle(Toggle(favorites, a), b) == Toggle(Toggle(favorites, b), a)
  {
  }

  /**
    The state of the search page. The search and match services are not called:
    their replies are parameters, `None` standing for a request that failed.
   */
  class SearchController {
    var breedFilter: string
    var sortOrder: SortOrder
    var totalResults: int
    var dogs: seq<Dog>
    var favorites: set<string>
    var currentPage: int
    var matchResult: Option<Dog>

    /** The current page never drops below the first. */
    ghost predicate Valid()
      reads this
    {
      currentPage >= 1
    }

    /** A fresh page: no filter, ascending order, no results, no favorites, page one, no match. */
    constructor ()
      ensures Valid()
      ensures breedFilter == "" && sortOrder == Asc
      ensures totalResults == 0 && dogs == [] && favorites == {} && currentPage == 1 && matchResult == None
    {
      breedFilter := "";
      sortOrder := Asc;
      totalResults := 0;
      dogs := [];
      favorites := {};
      currentPage := 1;
      matchResult := None;
    }

    /**
      The state after a search for `page` whose search reply is `search` and
      whose dog fetch reply is `fetched`. A failed search changes nothing; when
      the search succeeds but fetching its dogs fails, only the total has been
      taken over; when both succeed the page moves to `page` and the match is
      cleared. Filter, sort order and favorites are never touched.
     */
    twostate predicate SearchedFor(page: int, search: Option<SearchReply>, fetched: Option<seq<Dog>>)
      reads this
    {
      && breedFilter == old(breedFilter) && sortOrder == old(sortOrder) && favorites == old(favorites)
      && totalResults == (if search.Some? then search.value.total else old(totalResults))
      && (search.Some? && fetched.Some? ==> dogs == fetched.value && currentPage == page && matchResult == None)
      && (!(search.Some? && fetched.Some?) ==> dogs == old(dogs) && currentPage == old(currentPage) && matchResult == old(matchResult))
    }

    /** No field of the page changed. */
    twostate predicate Untouched()
      reads this
    {
      && breedFilter == old(breedFilter) && sortOrder == old(sortOrder) && favorites == old(favorites)
      && totalResults == old(totalResults) && dogs == old(dogs)
      && currentPage == old(currentPage) && matchResult == old(matchResult)
    }

    /**
      Searches for `page`: sends `query`, then, if the search succeeded, asks
      for the dogs with the ids it returned (`lookup`).
     */
    method PerformSearch(page: int, search: Option<SearchReply>, fetched: Option<seq<Dog>>)
      returns (query: SearchQuery, lookup: Option<seq<string>>, ok: bool)
      modifies this
      ensures query == BuildQuery(old(breedFilter), old(sortOrder), page)
      ensures lookup == if search.Some? then Some(search.value.resultIds) else None
      ensures ok <==> search.Some? && fetched.Some?
      ensures SearchedFor(page, search, fetched)
      ensures old(Valid()) && page >= 1 ==> Valid()
    {
      query := BuildQuery(breedFilter, sortOrder, page);
      lookup := None;
      ok := false;
      if search.Some? {
        totalResults := search.value.total;
        lookup := Some(search.value.resultIds);
        if fetched.Some? {
          dogs := fetched.value;
          currentPage := page;
          matchResult := None;
          ok := true;
        }
      }
    }

    /** Adds `dogId` to the favorites if it is absent, removes it if present. */
    method ToggleFavorite(dogId: string)
      modifies this`favorites
      ensures favorites == Toggle(old(favorites), dogId)
    {
      var newFavs := favorites;
      if dogId in newFavs {
        newFavs := newFavs - {dogId};
      } else {
        newFavs := newFavs + {dogId};
      }
      favorites := newFavs;
    }

    /**
      Asks for a match among the favorites (`request`) and then for the
      matched dog by its id (`lookup`). With no favorites nothing is
      requested; when the match or the fetch of the matched dog fails the match
      is unchanged; otherwise the match is the first dog fetched, or none if the
      fetch returned no dog.
     */
    method GenerateMatch(matchedId: Option<string>, fetched: Option<seq<Dog>>)
      returns (request: Option<set<string>>, lookup: Option<seq<string>>, outcome: MatchOutcome)
      modifies this`matchResult
      ensures request.None? <==> old(favorites) == {}
      ensures request.Some? ==> request.value == favorites
      ensures lookup == if request.Some? && matchedId.Some? then Some([matchedId.value]) else None
      ensures outcome == NoFavorites <==> favorites == {}
      ensures outcome == Matched <==> favorites != {} && matchedId.Some? && fetched.Some?
      ensures outcome == Matched ==> matchResult == if |fetched.value| == 0 then None else Some(fetched.value[0])
      ensures outcome != Matched ==> matchResult == old(matchResult)
    {
      lookup := None;
      if |favorites| == 0 {
        request := None;
        outcome := NoFavorites;
        return;
      }
      request := Some(favorites);
      if matchedId.Some? {
        lookup := Some([matchedId.value]);
      }
      if matchedId.Some? && fetched.Some? {
        var matchedDogs := fetched.value;
        matchResult := if |matchedDogs| == 0 then None else Some(matchedDogs[0]);
        outcome := Matched;
      } else {
        outcome := MatchFailed;
      }
    }

    /** Closes the match pop-up. */
    method CloseMatch()
      modifies this`matchResult
      ensures matchResult == None
    {
      matchResult := None;
    }

    /** The Previous link: searches the page before the current one, if there is one. */
    method GoPrevious(search: Option<SearchReply>, fetched: Option<seq<Dog>>)
      returns (query: Option<SearchQuery>, lookup: Option<seq<string>>)
      requires Valid()
      modifies this
      ensures Valid()
      ensures query.Some? <==> old(currentPage) > 1
      ensures query.Some? ==> query.value == BuildQuery(old(breedFilter), old(sortOrder), old(currentPage) - 1)
      ensures query.Some? ==> SearchedFor(old(currentPage) - 1, search, fetched)
      ensures lookup == if query.Some? && search.Some? then Some(search.value.resultIds) else None
      ensures query.None? ==> Untouched()
    {
      query, lookup := None, None;
      var target := Pagination.PreviousTarget(currentPage);
      if target.Some? {
        var q, ids, _ := PerformSearch(target.value, search, fetched);
        query, lookup := Some(q), ids;
      }
    }

    /** The Next link: searches the page after the current one, if there is one. */
    method GoNext(search: Option<SearchReply>, fetched: Option<seq<Dog>>)
      returns (query: Option<SearchQuery>, lookup: Option<seq<string>>)
      requires Valid()
      modifies this
      ensures Valid()
      ensures query.Some? <==> old(currentPage) < TotalPages(old(totalResults))
      ensures query.Some? ==> query.value == BuildQuery(old(breedFilter), old(sortOrder), old(currentPage) + 1)
      ensures query.Some? ==> SearchedFor(old(currentPage) + 1, search, fetched)
      ensures lookup == if query.Some? && search.Some? then Some(search.value.resultIds) else None
      ensures query.None? ==> Untouched()
      ensures currentPage <= TotalPages(old(totalResults)) || currentPage == old(currentPage)
    {
      query, lookup := None, None;
      var target := Pagination.NextTarget(currentPage, TotalPages(totalResults));
      if target.Some? {
        var q, ids, _ := PerformSearch(target.value, search, fetched);
        query, lookup := Some(q), ids;
      }
    }

    /**
      A click on a token of the page control: a page token searches that page,
      an ellipsis does nothing. Every page the control offers keeps the page
      counter valid.
     */
    method SelectToken(token: Pagination.Token, search: Option<SearchReply>, fetched: Option<seq<Dog>>)
      returns (query: Option<SearchQuery>, lookup: Option<seq<string>>)
      requires Valid()
      requires token in Pagination.Range(currentPage, TotalPages(totalResults))
      modifies this
      ensures Valid()
      ensures query.Some? <==> token.Page?
      ensures query.Some? ==> query.value == BuildQuery(old(breedFilter), old(sortOrder), token.n)
      ensures query.Some? ==> SearchedFor(token.n, search, fetched)
      ensures lookup == if query.Some? && search.Some? then Some(search.value.resultIds) else None
      ensures query.None? ==> Untouched()
      ensures currentPage <= TotalPages(old(totalResults)) || currentPage == old(currentPage)
    {
      query, lookup := None, None;
      var target := Pagination.TokenTarget(token);
      if target.Some? {
        Pagination.RangeWellFormed(currentPage, TotalPages(totalResults));
        var q, ids, _ := PerformSearch(target.value, search, fetched);
        query, lookup := Some(q), ids;
      }
    }
  }

  /**
    A search that succeeds while its dog fetch fails stores the new total but
    keeps the old page, so the page can end up past the page count: from page
    10 of 300 results, the Previous link's search reports 30 results and its
    fetch fails. The page stays 10 of a two-page result, the "Showing" line
    reads 226 to 30, the control is still shown, and its Previous arrow asks
    for page 9, which does not exist.
   */
  method StalePageAfterFailedFetch() returns (page: int, total: int)
    ensures page == 10 && total == 30 && TotalPages(total) == 2 && page > TotalPages(total)
    ensures StartResult(total, page) == 226 && EndResult(total, page) == 30
    ensures ShowsPagination(total) && Pagination.PreviousTarget(page) == Some(9)
  {
    var c := new SearchController();
    var _, _, _ := c.PerformSearch(10, Some(SearchReply([], 300)), Some([]));
    var _, _ := c.GoPrevious(Some(SearchReply([], 30)), None);
    page, total := c.currentPage, c.totalResults;
  }
}
