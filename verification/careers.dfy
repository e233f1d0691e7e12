/** The careers browser (client/src/pages/Careers.jsx): a search box, a type filter
    applied to the loaded list only, and a "Load More" button that appends the next
    page. A fetch is an input: the response payload, or None when the request failed. */
module CareersPage {
  import opened Wrappers
  import opened Collections
  import opened Text
  import opened Models
  import opened ItemsRoute
  import opened ScrollList

  const PageSize: nat := 9
  const AllTypes := "All"

  /** The query string `page=<n>&limit=9[&search=<s>]`; the search is sent only when
      non-empty, the type filter never. */
  datatype CareersRequest = CareersRequest(page: int, limit: nat, search: Option<string>)

  /** The parameters the route reads from that query string. */
  function ParamsOf(req: CareersRequest): ListParams
    requires req.page >= 1
  {
    ListParams(Some(DecimalText(req.page)), Some(DecimalText(req.limit)), req.search, None)
  }

  /** The route serves the page that was asked for, with the page size of 9, and
      filters by the search text alone. */
  lemma RequestUnderstood(pageNum: nat, search: string)
    requires pageNum >= 1
    ensures var params := ParamsOf(CareersRequest(pageNum, PageSize, if search == "" then None else Some(search)));
            && IntParam(params.page, DefaultPage) == pageNum
            && IntParam(params.limit, DefaultLimit) == PageSize
            && QueryOf(params) == Query(if search == "" then None else Some(search), None)
  {
    DecimalParam(pageNum, DefaultPage);
    DecimalParam(PageSize, DefaultLimit);
  }

  /** `filteredCareers`: the loaded careers of the chosen type, or all of them for
      "All", in loaded order. */
  function FilteredCareers(careers: seq<CareerSummary>, filterType: string): (r: seq<CareerSummary>)
    ensures forall c :: c in r <==> c in careers && (filterType == AllTypes || c.kind == filterType)
    ensures filterType == AllTypes ==> r == careers
  {
    var r := Filter(careers, (c: CareerSummary) => filterType == AllTypes || c.kind == filterType);
    if filterType == AllTypes then
      FilterKeepsAll(careers, (c: CareerSummary) => filterType == AllTypes || c.kind == filterType);
      r
    else r
  }

  class Careers {
    var careersData: seq<CareerSummary>
    var loading: bool
    var searchTerm: string
    var filterType: string
    var page: int
    var hasMore: bool

    ghost predicate Valid()
      reads this
    {
      page >= 1
    }

    constructor ()
      ensures Valid()
      ensures careersData == [] && loading && searchTerm == "" && filterType == AllTypes
      ensures page == 1 && hasMore
    {
      careersData := [];
      loading := true;
      searchTerm := "";
      filterType := AllTypes;
      page := 1;
      hasMore := true;
    }

    /** The "Load More" button is rendered only while more pages exist and neither
        a search nor a type filter is active. */
    predicate LoadMoreVisible()
      reads this
    {
      hasMore && searchTerm == "" && filterType == AllTypes
    }

    /** `fetchCareers(pageNum, search)`: sends the request and applies the response. */
    method FetchCareers(pageNum: int, search: string, response: Option<Payload<CareerSummary>>) returns (req: CareersRequest)
      modifies this
      ensures req == CareersRequest(pageNum, PageSize, if search == "" then None else Some(search))
      ensures !loading
      ensures response.None? ==> careersData == old(careersData) && hasMore == old(hasMore)
      ensures response.Some? ==> careersData == Accumulate(old(careersData), pageNum, Received(response.value))
      ensures response.Some? ==> hasMore == MoreAfter(response.value)
      ensures page == old(page) && searchTerm == old(searchTerm) && filterType == old(filterType)
    {
      loading := true;
      req := CareersRequest(pageNum, PageSize, None);
      if search != "" {
        req := req.(search := Some(search));
      }
      if response.Some? {
        var data := response.value;
        if pageNum == 1 {
          careersData := Received(data);
        } else {
          careersData := careersData + Received(data);
        }
        hasMore := data.currentPage < data.totalPages;
      }
      loading := false;
    }

    /** A (debounced) change of the search text or the type filter: back to page 1,
        whose response replaces the list. */
    method ChangeQuery(search: string, filter: string, response: Option<Payload<CareerSummary>>) returns (req: CareersRequest)
      requires Valid()
      modifies this
      ensures Valid()
      ensures searchTerm == search && filterType == filter && page == 1 && !loading
      ensures req == CareersRequest(1, PageSize, if search == "" then None else Some(search))
      ensures response.None? ==> careersData == old(careersData) && hasMore == old(hasMore)
      ensures response.Some? ==> careersData == Received(response.value) && hasMore == MoreAfter(response.value)
    {
      searchTerm := search;
      filterType := filter;
      page := 1;
      req := FetchCareers(1, searchTerm, response);
    }

    /** `handleLoadMore`: request the next page and append it. The button is
        disabled while loading and absent unless `LoadMoreVisible()`, so otherwise
        nothing happens. */
    method LoadMore(response: Option<Payload<CareerSummary>>) returns (req: Option<CareersRequest>)
      requires Valid()
      modifies this
      ensures Valid()
      ensures old(!LoadMoreVisible() || loading) ==> req.None? && unchanged(this)
      ensures old(LoadMoreVisible() && !loading) ==>
                && page == old(page) + 1
                && req == Some(CareersRequest(page, PageSize, None))
                && !loading
                && searchTerm == old(searchTerm) && filterType == old(filterType)
                && (response.None? ==> careersData == old(careersData) && hasMore == old(hasMore))
                && (response.Some? ==>
                      careersData == old(careersData) + Received(response.value) && hasMore == MoreAfter(response.value))
    {
      if !LoadMoreVisible() || loading {
        return None;
      }
      var nextPage := page + 1;
      page := nextPage;
      var sent := FetchCareers(nextPage, searchTerm, response);
      req := Some(sent);
    }
  }
}
