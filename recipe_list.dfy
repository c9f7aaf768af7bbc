/**
 * The recipe listing page's fetch state: the recipes shown, the three
 * loading flags, the page counter and the server's pagination, as the
 * listing page (`RecipesPage`) keeps them in React state cells. Each fetch
 * is modelled as a begin step (the flags set before the request goes out)
 * and a complete step (the response applied, then the flags cleared).
 */
module RecipeList {
  import opened Wrappers
  import opened RecipeFilters

  datatype Recipe = Recipe(id: string, title: string)

  /** The `pagination` object the listing endpoint returns. */
  datatype Pagination = Pagination(currentPage: int, totalPages: int, totalCount: int, hasMore: bool)

  /** A parsed listing response: the recipes of the page and, when the
      server sends one, its pagination. */
  datatype ListingResponse = ListingResponse(recipes: seq<Recipe>, pagination: Option<Pagination>)

  /** How a request ends: a parsed response, or failure (a response that is
      not ok, a network error or a body that does not parse). */
  datatype FetchOutcome = Received(response: ListingResponse) | Failed

  /** What one call of the fetch routine asks for: the page, whether the
      results replace the list, and the parameters of the request. */
  datatype PageRequest = PageRequest(page: int, reset: bool, params: Query)

  /** The list after a page arrives: the batch replaces the list for a
      reset or for page 1, and is appended after it otherwise. */
  function Accumulate(shown: seq<Recipe>, batch: seq<Recipe>, page: int, reset: bool): seq<Recipe> {
    if reset || page == 1 then batch else shown + batch
  }

  /** The batches' recipes one after the other. */
  function Flatten(batches: seq<seq<Recipe>>): (r: seq<Recipe>)
    ensures batches == [] ==> r == []
  {
    if batches == [] then [] else Flatten(batches[..|batches| - 1]) + batches[|batches| - 1]
  }

  /** The list after the first page is fetched with a reset (as a change of
      criteria does) and pages 2, 3, ... are loaded with "load more". */
  function ShownAfter(shown: seq<Recipe>, batches: seq<seq<Recipe>>): seq<Recipe> {
    if batches == [] then shown
    else
      var n := |batches|;
      Accumulate(ShownAfter(shown, batches[..n - 1]), batches[n - 1], n, n == 1)
  }

  /** Whatever was shown before, loading pages 1 to n this way shows the n
      batches in page order, none lost and none repeated. */
  lemma {:induction false} ShownAfterIsConcatenation(shown: seq<Recipe>, batches: seq<seq<Recipe>>)
    requires |batches| >= 1
    ensures ShownAfter(shown, batches) == Flatten(batches)
    decreases |batches|
  {
    var n := |batches|;
    if n > 1 {
      ShownAfterIsConcatenation(shown, batches[..n - 1]);
      assert batches[..n - 1][..n - 2] == batches[..n - 2];
    } else {
      assert batches[..0] == [];
    }
  }

  /** An appended page keeps every recipe already shown, in place, and adds
      the batch after them: the length grows by the batch size. */
  lemma AccumulateAppends(shown: seq<Recipe>, batch: seq<Recipe>, page: int)
    requires page != 1
    ensures var r := Accumulate(shown, batch, page, false);
      && |r| == |shown| + |batch|
      && r[..|shown|] == shown
      && r[|shown|..] == batch
  {
  }

  class RecipeListController {
    var criteria: FilterCriteria
    var filteredRecipes: seq<Recipe>
    var isLoadingRecipes: bool
    var isInitialLoad: bool
    var isFiltering: bool
    var isLoadingMore: bool
    var currentPage: int
    var pagination: Option<Pagination>

    /** Until a fetch succeeds, the page shows no recipes and has no
        pagination. */
    predicate NothingBeforeFirstLoad()
      reads this
    {
      isInitialLoad ==> filteredRecipes == [] && pagination.None?
    }

    /** No loading indicator is on. */
    predicate Idle()
      reads this
    {
      !isLoadingRecipes && !isFiltering && !isLoadingMore
    }

    /** The state cells' initial values. */
    constructor()
      ensures criteria == NoFilters && filteredRecipes == [] && pagination == None
      ensures isLoadingRecipes && isInitialLoad && !isFiltering && !isLoadingMore
      ensures currentPage == 1
      ensures NothingBeforeFirstLoad()
    {
      criteria := NoFilters;
      filteredRecipes := [];
      isLoadingRecipes := true;
      isInitialLoad := true;
      isFiltering := false;
      isLoadingMore := false;
      currentPage := 1;
      pagination := None;
    }

    /** The URL seeding effect: when the query string carries a filter, all
        nine filter cells take the values read from it; otherwise nothing
        changes. */
    method SeedFromLocation(q: Query) returns (seeded: bool)
      requires NothingBeforeFirstLoad()
      modifies this
      ensures seeded <==> HasActiveFilters(UrlCriteria(q))
      ensures criteria == if seeded then UrlCriteria(q) else old(criteria)
      ensures filteredRecipes == old(filteredRecipes) && pagination == old(pagination)
      ensures currentPage == old(currentPage) && isInitialLoad == old(isInitialLoad)
      ensures isLoadingRecipes == old(isLoadingRecipes) && isFiltering == old(isFiltering)
      ensures isLoadingMore == old(isLoadingMore)
      ensures NothingBeforeFirstLoad()
    {
      var seed := SeedFromUrl(q);
      seeded := seed.Some?;
      if seeded {
        criteria := seed.value;
      }
    }

    /** The start of a fetch: a first load or a reset shows the full
        loading state and goes back to page 1, any other fetch shows the
        filtering indicator; a page after the first also shows the
        load-more indicator. The request carries the current criteria. */
    method BeginFetch(page: int, reset: bool) returns (req: PageRequest)
      requires NothingBeforeFirstLoad()
      modifies this
      ensures req == PageRequest(page, reset, RequestParams(criteria, page))
      ensures old(isInitialLoad) || reset ==>
        isLoadingRecipes && currentPage == 1 && isFiltering == old(isFiltering)
      ensures !(old(isInitialLoad) || reset) ==>
        isFiltering && isLoadingRecipes == old(isLoadingRecipes) && currentPage == old(currentPage)
      ensures isLoadingMore == (page > 1 || old(isLoadingMore))
      ensures criteria == old(criteria) && filteredRecipes == old(filteredRecipes)
      ensures pagination == old(pagination) && isInitialLoad == old(isInitialLoad)
      ensures NothingBeforeFirstLoad()
    {
      if isInitialLoad || reset {
        isLoadingRecipes := true;
        currentPage := 1;
      } else {
        isFiltering := true;
      }
      if page > 1 {
        isLoadingMore := true;
      }
      var params := BuildParams(criteria, page);
      req := PageRequest(page, reset, params);
    }

    /** The end of a fetch. A response replaces or extends the list, adopts
        the server's pagination and page number when it carries them, and
        ends the first load; a failure changes none of these. Either way,
        every loading indicator is off afterwards. */
    method Complete(req: PageRequest, outcome: FetchOutcome)
      requires NothingBeforeFirstLoad()
      modifies this
      ensures Idle()
      ensures outcome.Failed? ==>
        filteredRecipes == old(filteredRecipes) && pagination == old(pagination)
        && currentPage == old(currentPage) && isInitialLoad == old(isInitialLoad)
      ensures outcome.Received? ==>
        var resp := outcome.response;
        && filteredRecipes == Accumulate(old(filteredRecipes), resp.recipes, req.page, req.reset)
        && pagination == (if resp.pagination.Some? then resp.pagination else old(pagination))
        && currentPage == (if resp.pagination.Some? then resp.pagination.value.currentPage else old(currentPage))
        && !isInitialLoad
      ensures criteria == old(criteria)
      ensures NothingBeforeFirstLoad()
    {
      if outcome.Received? {
        var resp := outcome.response;
        if req.reset || req.page == 1 {
          filteredRecipes := resp.recipes;
        } else {
          filteredRecipes := filteredRecipes + resp.recipes;
        }
        if resp.pagination.Some? {
          pagination := resp.pagination;
          currentPage := resp.pagination.value.currentPage;
        }
        if isInitialLoad {
          isInitialLoad := false;
        }
      }
      isLoadingRecipes := false;
      isFiltering := false;
      isLoadingMore := false;
    }

    /** One whole run of the fetch routine for `page`, ending in `outcome`. */
    method FetchPage(page: int, reset: bool, outcome: FetchOutcome) returns (req: PageRequest)
      requires NothingBeforeFirstLoad()
      modifies this
      ensures req == PageRequest(page, reset, RequestParams(criteria, page))
      ensures Idle()
      ensures outcome.Failed? ==>
        filteredRecipes == old(filteredRecipes) && pagination == old(pagination)
        && isInitialLoad == old(isInitialLoad)
        && currentPage == (if old(isInitialLoad) || reset then 1 else old(currentPage))
      ensures outcome.Received? ==>
        var resp := outcome.response;
        && filteredRecipes == Accumulate(old(filteredRecipes), resp.recipes, page, reset)
        && pagination == (if resp.pagination.Some? then resp.pagination else old(pagination))
        && currentPage == (if resp.pagination.Some? then resp.pagination.value.currentPage
                           else if old(isInitialLoad) || reset then 1 else old(currentPage))
        && !isInitialLoad
      ensures criteria == old(criteria)
      ensures NothingBeforeFirstLoad()
    {
      req := BeginFetch(page, reset);
      Complete(req, outcome);
    }

    /** The criteria effect: whenever a filter cell changes (and on the
        first render), page 1 is fetched again and replaces the list. */
    method CriteriaEffect() returns (req: PageRequest)
      requires NothingBeforeFirstLoad()
      modifies this
      ensures req == PageRequest(1, true, RequestParams(criteria, 1))
      ensures isLoadingRecipes && currentPage == 1
      ensures isFiltering == old(isFiltering) && isLoadingMore == old(isLoadingMore)
      ensures criteria == old(criteria) && filteredRecipes == old(filteredRecipes)
      ensures pagination == old(pagination) && isInitialLoad == old(isInitialLoad)
      ensures NothingBeforeFirstLoad()
    {
      req := BeginFetch(1, true);
    }

    /** "Clear filters": every criterion empty or false, back to page 1,
        no pagination. The list and the loading flags stay. */
    method ClearFilters()
      requires NothingBeforeFirstLoad()
      modifies this
      ensures criteria == NoFilters && !HasActiveFilters(criteria)
      ensures currentPage == 1 && pagination == None
      ensures filteredRecipes == old(filteredRecipes) && isInitialLoad == old(isInitialLoad)
      ensures isLoadingRecipes == old(isLoadingRecipes) && isFiltering == old(isFiltering)
      ensures isLoadingMore == old(isLoadingMore)
      ensures NothingBeforeFirstLoad()
    {
      NoFiltersInactive();
      criteria := NoFilters;
      currentPage := 1;
      pagination := None;
    }

    /** "Load more": only when the server said there are more pages, fetch
        the page after the current one, appending to the list, with the
        criteria as they are. Otherwise nothing happens. */
    method LoadMore() returns (req: Option<PageRequest>)
      requires NothingBeforeFirstLoad()
      modifies this
      ensures req.Some? <==> old(pagination).Some? && old(pagination).value.hasMore
      ensures req.None? ==> unchanged(this)
      ensures req.Some? ==>
        var next := old(currentPage) + 1;
        && req.value == PageRequest(next, false, RequestParams(criteria, next))
        && (old(isInitialLoad) ==> isLoadingRecipes && currentPage == 1 && isFiltering == old(isFiltering))
        && (!old(isInitialLoad) ==>
              isFiltering && isLoadingRecipes == old(isLoadingRecipes) && currentPage == old(currentPage))
        && isLoadingMore == (next > 1 || old(isLoadingMore))
      ensures criteria == old(criteria) && filteredRecipes == old(filteredRecipes)
      ensures pagination == old(pagination) && isInitialLoad == old(isInitialLoad)
      ensures NothingBeforeFirstLoad()
    {
      if pagination.Some? && pagination.value.hasMore {
        var r := BeginFetch(currentPage + 1, false);
        req := Some(r);
      } else {
        req := None;
      }
    }
  }
}
