/** The colleges and exams browser (client/src/pages/Colleges.jsx): two tabs, each
    listing one kind of record through the server's type filter, with a search box
    and a "Load More" button. A fetch is an input: the response payload, or None
    when the request failed. */
module CollegesPage {
  import opened Wrappers
  import opened Collections
  import opened Text
  import opened Models
  import opened ItemsRoute
  import opened ScrollList

  const PageSize: nat := 10
  const ExamsTab := "exams"

  /** `tab === 'exams' ? 'Exam' : 'College'` */
  function TypeForTab(tab: string): (kind: string)
    ensures tab == ExamsTab ==> kind == ExamKind
    ensures tab != ExamsTab ==> kind == CollegeKind
  {
    if tab == ExamsTab then ExamKind else CollegeKind
  }

  /** The query string `page=<n>&limit=10&type=<kind>[&search=<s>]`. */
  datatype CollegesRequest = CollegesRequest(page: int, limit: nat, kind: string, search: Option<string>)

  /** The parameters the route reads from that query string. */
  function ParamsOf(req: CollegesRequest): ListParams
    requires req.page >= 1
  {
    ListParams(Some(DecimalText(req.page)), Some(DecimalText(req.limit)), req.search, Some(req.kind))
  }

  /** Every record the route serves to a tab is of that tab's kind, so the exams tab
      never receives a college and the other tab never an exam. */
  lemma TabServesItsKind(store: seq<CollegeExam>, pageNum: nat, search: string, tab: string)
    requires pageNum >= 1
    ensures var req := CollegesRequest(pageNum, PageSize, TypeForTab(tab), if search == "" then None else Some(search));
            var params := ParamsOf(req);
            && IntParam(params.page, DefaultPage) == pageNum
            && IntParam(params.limit, DefaultLimit) == PageSize
            && (forall e :: e in MatchingEntries(store, QueryOf(params)) ==> e.kind == TypeForTab(tab))
  {
    DecimalParam(pageNum, DefaultPage);
    DecimalParam(PageSize, DefaultLimit);
  }

  class Colleges {
    var activeTab: string
    var searchTerm: string
    var items: seq<CollegeExam>
    var loading: bool
    var page: int
    var hasMore: bool

    ghost predicate Valid()
      reads this
    {
      page >= 1
    }

    constructor ()
      ensures Valid()
      ensures activeTab == ExamsTab && searchTerm == "" && items == [] && loading
      ensures page == 1 && hasMore
    {
      activeTab := ExamsTab;
      searchTerm := "";
      items := [];
      loading := true;
      page := 1;
      hasMore := true;
    }

    /** The "Load More" button is rendered only while more pages exist and no search
        is active. */
    predicate LoadMoreVisible()
      reads this
    {
      hasMore && searchTerm == ""
    }

    /** `fetchItems(pageNum, search, tab)`: sends the request and applies the response. */
    method FetchItems(pageNum: int, search: string, tab: string, response: Option<Payload<CollegeExam>>) returns (req: CollegesRequest)
      modifies this
      ensures req == CollegesRequest(pageNum, PageSize, TypeForTab(tab), if search == "" then None else Some(search))
      ensures !loading
      ensures response.None? ==> items == old(items) && hasMore == old(hasMore)
      ensures response.Some? ==> items == Accumulate(old(items), pageNum, Received(response.value))
      ensures response.Some? ==> hasMore == MoreAfter(response.value)
      ensures page == old(page) && searchTerm == old(searchTerm) && activeTab == old(activeTab)
    {
      loading := true;
      var kind := TypeForTab(tab);
      req := CollegesRequest(pageNum, PageSize, kind, None);
      if search != "" {
        req := req.(search := Some(search));
      }
      if response.Some? {
        var data := response.value;
        if pageNum == 1 {
          items := Received(data);
        } else {
          items := items + Received(data);
        }
        hasMore := data.currentPage < data.totalPages;
      }
      loading := false;
    }

    /** A (debounced) change of the search text or of the tab: back to page 1, whose
        response replaces the list. */
    method ChangeQuery(search: string, tab: string, response: Option<Payload<CollegeExam>>) returns (req: CollegesRequest)
      requires Valid()
      modifies this
      ensures Valid()
      ensures searchTerm == search && activeTab == tab && page == 1 && !loading
      ensures req == CollegesRequest(1, PageSize, TypeForTab(tab), if search == "" then None else Some(search))
      ensures response.None? ==> items == old(items) && hasMore == old(hasMore)
      ensures response.Some? ==> items == Received(response.value) && hasMore == MoreAfter(response.value)
    {
      searchTerm := search;
      activeTab := tab;
      page := 1;
      req := FetchItems(1, searchTerm, activeTab, response);
    }

    /** `handleLoadMore`: request the next page of the current tab and append it. The
        button is disabled while loading and absent unless `LoadMoreVisible()`, so
        otherwise nothing happens. */
    method LoadMore(response: Option<Payload<CollegeExam>>) returns (req: Option<CollegesRequest>)
      requires Valid()
      modifies this
      ensures Valid()
      ensures old(!LoadMoreVisible() || loading) ==> req.None? && unchanged(this)
      ensures old(LoadMoreVisible() && !loading) ==>
                && page == old(page) + 1
                && req == Some(CollegesRequest(page, PageSize, TypeForTab(activeTab), None))
                && !loading
                && searchTerm == old(searchTerm) && activeTab == old(activeTab)
                && (response.None? ==> items == old(items) && hasMore == old(hasMore))
                && (response.Some? ==>
                      items == old(items) + Received(response.value) && hasMore == MoreAfter(response.value))
    {
      if !LoadMoreVisible() || loading {
        return None;
      }
      var nextPage := page + 1;
      page := nextPage;
      var sent := FetchItems(nextPage, searchTerm, activeTab, response);
      req := Some(sent);
    }
  }
}
