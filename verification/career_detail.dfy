/** The career detail page (client/src/pages/CareerDetail.jsx): the career, then the
    roadmaps and the colleges of the career's stream, fetched one after the other.
    Each fetch is an input, None when it failed; the first failure ends the
    sequence. */
module CareerDetailPage {
  import opened Wrappers
  import opened Collections
  import opened Models
  import opened ItemsRoute
  import opened SeedScript

  const AnyStream := "Any Stream"
  const TopCount := 3

  /** The roadmaps whose `stream` is the career's stream or "Any Stream", in order;
      a roadmap without a `stream` never qualifies. */
  function RelatedRoadmaps(rs: seq<Roadmap>, stream: string): (r: seq<Roadmap>)
    ensures forall x :: x in r <==> x in rs && (x.stream == Some(stream) || x.stream == Some(AnyStream))
  {
    Filter(rs, (x: Roadmap) => x.stream == Some(stream) || x.stream == Some(AnyStream))
  }

  /** The entries of the response's `colleges` list whose stream is the career's
      stream or "Any Stream", in order. */
  function RelatedColleges(cs: seq<CollegeExam>, stream: string): (r: seq<CollegeExam>)
    ensures forall x :: x in r <==> x in cs && (x.stream == stream || x.stream == AnyStream)
  {
    Filter(cs, (x: CollegeExam) => x.stream == stream || x.stream == AnyStream)
  }

  /** `colleges.slice(0, 3)` */
  function TopColleges(cs: seq<CollegeExam>): (r: seq<CollegeExam>)
    ensures |r| == Min(TopCount, |cs|)
    ensures forall k :: 0 <= k < |r| ==> r[k] == cs[k]
  {
    cs[..Min(TopCount, |cs|)]
  }

  datatype DetailView =
    | Loading
    | NoCareer
    | Showing(career: Career, roadmaps: seq<Roadmap>, topColleges: seq<CollegeExam>)

  class CareerDetail {
    var career: Option<Career>
    var roadmaps: seq<Roadmap>
    var colleges: seq<CollegeExam>
    var loading: bool

    constructor ()
      ensures career.None? && roadmaps == [] && colleges == [] && loading
    {
      career := None;
      roadmaps := [];
      colleges := [];
      loading := true;
    }

    /** `fetchData`: each result is stored as soon as it arrives, so a later failure
        keeps what the earlier steps stored. `colleges` is the `colleges` list of the
        `/colleges` response (None when the request failed or the list is missing). */
    method FetchData(careerRes: Option<Career>, roadmapsRes: Option<seq<Roadmap>>, collegesRes: Option<seq<CollegeExam>>)
      modifies this
      ensures !loading
      ensures careerRes.None? ==> career == old(career) && roadmaps == old(roadmaps) && colleges == old(colleges)
      ensures careerRes.Some? ==> career == careerRes
      ensures careerRes.Some? && roadmapsRes.None? ==> roadmaps == old(roadmaps) && colleges == old(colleges)
      ensures careerRes.Some? && roadmapsRes.Some? ==> roadmaps == RelatedRoadmaps(roadmapsRes.value, careerRes.value.stream)
      ensures careerRes.Some? && roadmapsRes.Some? && collegesRes.None? ==> colleges == old(colleges)
      ensures careerRes.Some? && roadmapsRes.Some? && collegesRes.Some? ==>
                colleges == RelatedColleges(collegesRes.value, careerRes.value.stream)
    {
      if careerRes.None? {
        loading := false;
        return;
      }
      var careerData := careerRes.value;
      career := Some(careerData);
      if roadmapsRes.None? {
        loading := false;
        return;
      }
      roadmaps := RelatedRoadmaps(roadmapsRes.value, careerData.stream);
      if collegesRes.None? {
        loading := false;
        return;
      }
      colleges := RelatedColleges(collegesRes.value, careerData.stream);
      loading := false;
    }

    /** What the page shows: a loading line, "Career not found" without a career,
        otherwise the career with its roadmaps and at most three colleges. */
    function View(): (v: DetailView)
      reads this
      ensures v.Loading? <==> loading
      ensures v.NoCareer? <==> !loading && career.None?
      ensures v.Showing? ==> Some(v.career) == career && v.roadmaps == roadmaps
      ensures v.Showing? ==> |v.topColleges| == Min(TopCount, |colleges|) && v.topColleges == colleges[..Min(TopCount, |colleges|)]
    {
      if loading then Loading
      else if career.None? then NoCareer
      else Showing(career.value, roadmaps, TopColleges(colleges))
    }
  }

  /** A roadmap as stored carries no `stream`, so none of the roadmaps the server
      returns is ever related to a career. */
  lemma StoredRoadmapsNeverRelated(rs: seq<Roadmap>, stream: string)
    ensures RelatedRoadmaps(StoredRoadmaps(rs), stream) == []
  {
    var stored := StoredRoadmaps(rs);
    FilterDropsAll(stored, (x: Roadmap) => x.stream == Some(stream) || x.stream == Some(AnyStream));
  }

  /** The page asks for `/colleges` with no parameters: the first 10 entries of the
      store. After seeding, the store lists every exam before any college, so with
      at least 10 exams that page's `colleges` list is empty and no college is ever
      related to a career. */
  lemma DefaultCollegesPageHasNoColleges(exams: seq<CollegeExam>, colleges: seq<CollegeExam>)
    requires |exams| >= DefaultLimit
    ensures var page, limit := IntParam(NoParams.page, DefaultPage), IntParam(NoParams.limit, DefaultLimit);
            && page == 1 && limit == DefaultLimit
            && CollegesOf(Window(MatchingEntries(Flatten(exams, colleges), QueryOf(NoParams)), (page - 1) * limit, limit)) == []
  {
    var store := Flatten(exams, colleges);
    FilterKeepsAll(store, EntryFilter(QueryOf(NoParams)));
    var w := Window(store, 0, DefaultLimit);
    assert forall e :: e in w ==> e.kind == ExamKind;
    FilterDropsAll(w, KindIs(CollegeKind));
  }
}
