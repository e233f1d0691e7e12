/** The listing and lookup routes (server/routes/items.js) over a store modelled as
    one sequence per collection, in store order. A text search is a literal,
    case-insensitive (ASCII) substring test standing for the source's `$regex` with
    option `i`. */
module ItemsRoute {
  import opened Wrappers
  import opened Collections
  import opened Text
  import opened Models

  const DefaultPage := 1
  const DefaultLimit := 10
  const CareerNotFound := "Career not found"

  /** The query-string values of a listing request; None when absent. */
  datatype ListParams = ListParams(page: Option<string>, limit: Option<string>, search: Option<string>, kind: Option<string>)

  const NoParams := ListParams(None, None, None, None)

  /** `parseInt(raw) || fallback`: an absent value, NaN and 0 are falsy and give the
      fallback; every other parsed value, negative ones included, is kept. */
  function IntParam(raw: Option<string>, fallback: int): (n: int)
    requires fallback != 0
    ensures n != 0
    ensures raw.None? ==> n == fallback
    ensures raw.Some? && ParseInt(raw.value).None? ==> n == fallback
    ensures raw.Some? && ParseInt(raw.value) == Some(0) ==> n == fallback
    ensures raw.Some? && ParseInt(raw.value).Some? && ParseInt(raw.value).value != 0 ==> n == ParseInt(raw.value).value
  {
    if raw.None? then fallback
    else match ParseInt(raw.value)
      case None => fallback
      case Some(v) => if v == 0 then fallback else v
  }

  /** A value with no decimal digit, such as "abc", falls back to the default. */
  lemma NonNumericParam(raw: string, fallback: int)
    requires fallback != 0
    requires forall k :: 0 <= k < |raw| ==> !('0' <= raw[k] <= '9')
    ensures IntParam(Some(raw), fallback) == fallback
  {
    NoDigitIsNaN(raw);
  }

  /** The page number a client writes into the query string is the page the route uses. */
  lemma DecimalParam(n: nat, fallback: int)
    requires n >= 1 && fallback != 0
    ensures IntParam(Some(DecimalText(n)), fallback) == n
  {
    ParseDecimalText(n);
  }

  /** The filter of a listing request: a text filter when `search` is non-empty, a
      type-equality filter when `type` is non-empty; both together are ANDed. */
  datatype Query = Query(text: Option<string>, kind: Option<string>)

  /** `req.query.x` used only when it is a non-empty string (`if (x)`). */
  function NonEmpty(raw: Option<string>): Option<string> {
    if raw.Some? && raw.value != "" then raw else None
  }

  function QueryOf(params: ListParams): Query {
    Query(NonEmpty(params.search), NonEmpty(params.kind))
  }

  /** Careers: the search must occur in the title or in the description. */
  predicate CareerMatches(q: Query, c: Career) {
    && (q.text.None? || ContainsIgnoreCase(c.title, q.text.value) || ContainsIgnoreCase(c.description, q.text.value))
    && (q.kind.None? || c.kind == q.kind.value)
  }

  function CareerFilter(q: Query): Career -> bool {
    (c: Career) => CareerMatches(q, c)
  }

  /** Every career of the store that the query selects, in store order. */
  function MatchingCareers(store: seq<Career>, q: Query): (m: seq<Career>)
    ensures forall c :: c in m <==> c in store && CareerMatches(q, c)
  {
    Filter(store, CareerFilter(q))
  }

  /** Colleges and exams: the search must occur in the name or in the stream. */
  predicate EntryMatches(q: Query, e: CollegeExam) {
    && (q.text.None? || ContainsIgnoreCase(e.name, q.text.value) || ContainsIgnoreCase(e.stream, q.text.value))
    && (q.kind.None? || e.kind == q.kind.value)
  }

  function EntryFilter(q: Query): CollegeExam -> bool {
    (e: CollegeExam) => EntryMatches(q, e)
  }

  function MatchingEntries(store: seq<CollegeExam>, q: Query): (m: seq<CollegeExam>)
    ensures forall e :: e in m <==> e in store && EntryMatches(q, e)
  {
    Filter(store, EntryFilter(q))
  }

  /** `Math.ceil(total / limit)` for a positive limit: the least number of pages of
      `limit` records that hold `total` records. */
  function CeilDiv(total: nat, limit: int): (pages: nat)
    requires limit > 0
    ensures pages * limit >= total
    ensures (pages - 1) * limit < total
  {
    var q := (total + limit - 1) / limit;
    var rem := (total + limit - 1) % limit;
    assert q * limit + rem == total + limit - 1;
    assert (q - 1) * limit == q * limit - limit;
    q
  }

  lemma MulMonotone(a: int, b: int, k: int)
    requires a <= b && k >= 0
    ensures a * k <= b * k
  {
    assert b * k - a * k == (b - a) * k;
  }

  /** `hasMore` as the pages compute it: a page before the last one exists exactly
      when records remain after it. */
  lemma MoreAfterPage(total: nat, page: int, limit: int)
    requires page >= 1 && limit > 0
    ensures page < CeilDiv(total, limit) <==> page * limit < total
  {
    var pages := CeilDiv(total, limit);
    if page < pages {
      MulMonotone(page, pages - 1, limit);
    } else {
      MulMonotone(pages, page, limit);
    }
  }

  /** A page past the last one is empty. */
  lemma PastLastPage<T>(m: seq<T>, page: int, limit: int)
    requires limit > 0 && page > CeilDiv(|m|, limit)
    ensures (page - 1) * limit >= |m|
    ensures Window(m, (page - 1) * limit, limit) == []
  {
    MulMonotone(CeilDiv(|m|, limit), page - 1, limit);
  }

  /** Loading pages 1..n one after the other yields the first n * limit records;
      loading every page yields all of them, so no matching record is missed. */
  function PagesUpTo<T>(m: seq<T>, limit: nat, n: nat): seq<T> {
    if n == 0 then [] else PagesUpTo(m, limit, n - 1) + Window(m, (n - 1) * limit, limit)
  }

  lemma {:induction false} PagesUpToIsPrefix<T>(m: seq<T>, limit: nat, n: nat)
    ensures PagesUpTo(m, limit, n) == m[..Min(n * limit, |m|)]
  {
    if n > 0 {
      PagesUpToIsPrefix(m, limit, n - 1);
      var skip := (n - 1) * limit;
      var end := n * limit;
      assert end == skip + limit by {
        assert (n - 1) * limit == n * limit - limit;
      }
      AppendWindow(m, skip, limit);
    }
  }

  lemma AppendWindow<T>(m: seq<T>, skip: nat, limit: nat)
    ensures m[..Min(skip, |m|)] + Window(m, skip, limit) == m[..Min(skip + limit, |m|)]
  {
  }

  lemma AllPagesCoverMatches<T>(m: seq<T>, limit: int)
    requires limit > 0
    ensures PagesUpTo(m, limit, CeilDiv(|m|, limit)) == m
  {
    PagesUpToIsPrefix(m, limit, CeilDiv(|m|, limit));
  }

  datatype CareersEnvelope = CareersEnvelope(careers: seq<CareerSummary>, currentPage: int, totalPages: nat, total: nat)

  datatype CollegesEnvelope = CollegesEnvelope(
    items: seq<CollegeExam>,
    exams: seq<CollegeExam>,
    colleges: seq<CollegeExam>,
    currentPage: int,
    totalPages: nat,
    total: nat)

  /** Paging values the store cannot serve as a plain window: a negative skip (a
      page below 1), which the store refuses and the route answers with status 500,
      and a negative limit. */
  datatype ListError = NegativeLimit | NegativeSkip

  /** With a positive limit the skip is negative exactly when the page is below 1. */
  lemma SkipSign(page: int, limit: int)
    requires limit > 0
    ensures (page - 1) * limit < 0 <==> page < 1
  {
    if page < 1 {
      MulMonotone(page - 1, -1, limit);
    } else {
      MulMonotone(0, page - 1, limit);
    }
  }

  /** The list view of each career, in order (`.select('-subCareers')`). */
  function Summaries(cs: seq<Career>): (r: seq<CareerSummary>)
    ensures |r| == |cs|
    ensures forall k :: 0 <= k < |cs| ==> r[k] == Summary(cs[k])
  {
    seq(|cs|, k requires 0 <= k < |cs| => Summary(cs[k]))
  }

  /** GET /careers */
  method ListCareers(store: seq<Career>, params: ListParams) returns (r: Result<CareersEnvelope, ListError>)
    ensures var page, limit := IntParam(params.page, DefaultPage), IntParam(params.limit, DefaultLimit);
      && (r.Failure? <==> limit < 0 || page < 1)
      && (r.Failure? ==> r.error == if limit < 0 then NegativeLimit else NegativeSkip)
      && (r.Success? ==>
            var m := MatchingCareers(store, QueryOf(params));
            var skip := (page - 1) * limit;
            && skip >= 0
            && r.value.currentPage == page
            && r.value.total == |m|
            && r.value.totalPages == CeilDiv(|m|, limit)
            && r.value.careers == Summaries(Window(m, skip, limit))
            && |r.value.careers| <= limit)
  {
    var page := IntParam(params.page, DefaultPage);
    var limit := IntParam(params.limit, DefaultLimit);
    var search := params.search.GetOr("");
    var kind := params.kind;
    var skip := (page - 1) * limit;

    var query := Query(None, None);
    if search != "" {
      query := query.(text := Some(search));
    }
    if kind.Some? && kind.value != "" {
      query := query.(kind := kind);
    }
    assert query == QueryOf(params);

    if limit < 0 {
      return Failure(NegativeLimit);
    }
    SkipSign(page, limit);
    if skip < 0 {
      return Failure(NegativeSkip);
    }

    var matching := MatchingCareers(store, query);
    var total := |matching|;
    var window := Window(matching, skip, limit);
    var careers := Summaries(window);
    r := Success(CareersEnvelope(careers, page, CeilDiv(total, limit), total));
  }

  /** GET /careers/:id: the first record with that id, the whole record. */
  datatype LookupResponse = Found(career: Career) | NotFound(status: int, message: string)

  function FindCareer(store: seq<Career>, id: int): (r: Option<Career>)
    ensures r.None? <==> forall c :: c in store ==> c.id != id
    ensures r.Some? ==> r.value in store && r.value.id == id
    ensures r.Some? ==> r.value == store[|store| - |SkipOtherIds(store, id)|]
    decreases |store|
  {
    if store == [] then None
    else if store[0].id == id then Some(store[0])
    else
      assert store == [store[0]] + store[1..];
      FindCareer(store[1..], id)
  }

  /** The store from its first record with that id on. */
  function SkipOtherIds(store: seq<Career>, id: int): (rest: seq<Career>)
    ensures |rest| <= |store| && rest == store[|store| - |rest|..]
    ensures forall k :: 0 <= k < |store| - |rest| ==> store[k].id != id
    ensures rest != [] ==> rest[0].id == id
    decreases |store|
  {
    if store == [] || store[0].id == id then store else SkipOtherIds(store[1..], id)
  }

  function GetCareer(store: seq<Career>, id: int): (resp: LookupResponse)
    ensures resp.NotFound? <==> forall c :: c in store ==> c.id != id
    ensures resp.NotFound? ==> resp == NotFound(404, CareerNotFound)
    ensures resp.Found? ==> resp.career in store && resp.career.id == id
  {
    match FindCareer(store, id)
    case None => NotFound(404, CareerNotFound)
    case Some(c) => Found(c)
  }

  function KindIs(kind: string): CollegeExam -> bool {
    (e: CollegeExam) => e.kind == kind
  }

  /** The `exams` convenience list: the page items of kind "Exam", in page order. */
  function ExamsOf(items: seq<CollegeExam>): (exams: seq<CollegeExam>)
    ensures forall e :: e in exams <==> e in items && e.kind == ExamKind
  {
    Filter(items, KindIs(ExamKind))
  }

  /** The `colleges` convenience list: the page items of kind "College", in page order. */
  function CollegesOf(items: seq<CollegeExam>): (colleges: seq<CollegeExam>)
    ensures forall e :: e in colleges <==> e in items && e.kind == CollegeKind
  {
    Filter(items, KindIs(CollegeKind))
  }

  /** The two lists share no record, and when every item is an exam or a college
      they hold exactly the page items between them. */
  lemma SplitPartitionsPage(items: seq<CollegeExam>)
    ensures forall e :: !(e in ExamsOf(items) && e in CollegesOf(items))
    ensures (forall e :: e in items ==> e.kind == ExamKind || e.kind == CollegeKind) ==>
              multiset(ExamsOf(items)) + multiset(CollegesOf(items)) == multiset(items)
  {
    if forall e :: e in items ==> e.kind == ExamKind || e.kind == CollegeKind {
      FilterPartition(items, KindIs(ExamKind), KindIs(CollegeKind));
    }
  }

  /** GET /colleges */
  method ListColleges(store: seq<CollegeExam>, params: ListParams) returns (r: Result<CollegesEnvelope, ListError>)
    ensures var page, limit := IntParam(params.page, DefaultPage), IntParam(params.limit, DefaultLimit);
      && (r.Failure? <==> limit < 0 || page < 1)
      && (r.Failure? ==> r.error == if limit < 0 then NegativeLimit else NegativeSkip)
      && (r.Success? ==>
            var m := MatchingEntries(store, QueryOf(params));
            var skip := (page - 1) * limit;
            && skip >= 0
            && r.value.currentPage == page
            && r.value.total == |m|
            && r.value.totalPages == CeilDiv(|m|, limit)
            && r.value.items == Window(m, skip, limit)
            && |r.value.items| <= limit
            && r.value.exams == ExamsOf(r.value.items)
            && r.value.colleges == CollegesOf(r.value.items))
  {
    var page := IntParam(params.page, DefaultPage);
    var limit := IntParam(params.limit, DefaultLimit);
    var skip := (page - 1) * limit;
    var kind := params.kind;

    var query := Query(None, None);
    if kind.Some? && kind.value != "" {
      query := query.(kind := kind);
    }
    var search := params.search.GetOr("");
    if search != "" {
      query := query.(text := Some(search));
    }
    assert query == QueryOf(params);

    if limit < 0 {
      return Failure(NegativeLimit);
    }
    SkipSign(page, limit);
    if skip < 0 {
      return Failure(NegativeSkip);
    }

    var matching := MatchingEntries(store, query);
    var total := |matching|;
    var items := Window(matching, skip, limit);
    var exams := ExamsOf(items);
    var colleges := CollegesOf(items);
    r := Success(CollegesEnvelope(items, exams, colleges, page, CeilDiv(total, limit), total));
  }
}
